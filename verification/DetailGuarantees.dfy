/** What viewers, waiters and nodes may rely on: consequences of the invariant over sections and whole runs. */
module DetailGuarantees {
  import opened Prelude
  import opened NodeStatusTypes
  import opened DetailSpec
  import opened DetailInvariant
  import opened DetailRuns

  /** The node's snapshot is unexpired at `now`, was stored under `id`, and `id` was made for `uid`. */
  ghost predicate Servable(m: Manager, node: string, id: string, uid: string, now: Time) {
    m.cache.Live(node, now) && m.cache.entries[node].requestId == id && id in m.heap && m.heap[id].uid == uid
  }

  /** A servable snapshot survives expiry: its request lapses no earlier than it does. */
  lemma ServableSurvivesExpiry(m: Manager, node: string, id: string, uid: string, now: Time, last: Time)
    requires Inv(m) && m.clock <= now <= last
    ensures var e := Expire(m, now);
            Servable(e, node, id, uid, last) == Servable(m, node, id, uid, last)
            && (Servable(m, node, id, uid, last) ==> id in e.requests && e.heap[id] == m.heap[id] && e.heap[id].state.Complete?)
  {
  }

  lemma ServableSurvivesStrangers(e: Manager, node: string, id: string, uid: string, tick: string -> Time, now: Time, seen: Time)
    requires Inv(e) && Between(now, tick, seen) && e.clock <= now
    ensures var i := InvalidateAll(e, Strangers(e, node, uid), tick);
            Servable(i, node, id, uid, seen) == Servable(e, node, id, uid, seen)
            && (Servable(e, node, id, uid, seen) ==> i.heap[id] == e.heap[id] && i.cache.entries[node] == e.cache.entries[node])
            && (i.cache.Live(node, seen) ==> i.heap[i.cache.entries[node].requestId].uid == uid)
  {
    var gone := Invalidated(e, Strangers(e, node, uid));
    var i := InvalidateAll(e, Strangers(e, node, uid), tick);
    if Servable(e, node, id, uid, seen) {
      assert !Evicted(e, gone, node, e.cache.entries[node], tick);
    }
    if i.cache.Live(node, seen) {
      var s := e.cache.entries[node];
      assert Backed(e, s);
      assert !Evicted(e, gone, node, s, tick);
      assert s.requestId !in gone;
    }
  }

  /** What one expiry pass does to one record. */
  lemma ExpireAt(m: Manager, now: Time, id: string)
    requires WellFormed(m) && id in m.heap
    ensures var e := Expire(m, now);
            id in e.heap && e.heap[id] == Visited(m, now, m.requests, id) && e.cache == m.cache && e.timeout == m.timeout
            && (id in e.requests <==> id in m.requests && now < e.heap[id].wakeAt)
  {
  }

  /** When a retained request leaves the manager if nothing else happens to it. */
  function RetainedUntil(r: Request, timeout: Time): Time {
    if r.state.Pending? || r.state.Complete? then r.wakeAt + timeout else r.wakeAt
  }

  /** Expiry keeps exactly the requests still within their retention, all of them due later than `now`. */
  lemma ExpireRetains(m: Manager, now: Time, id: string)
    requires Inv(m)
    ensures id in Expire(m, now).requests <==> id in m.requests && now < RetainedUntil(m.heap[id], m.timeout)
    ensures id in Expire(m, now).requests ==> now < Expire(m, now).heap[id].wakeAt
  {
  }

  lemma ExpireComposesAt(m: Manager, first: Time, second: Time, id: string)
    requires WellFormed(m) && first <= second && id in m.requests
    ensures var twice, once := Expire(Expire(m, first), second), Expire(m, second);
            (id in twice.requests <==> id in once.requests) && (id in once.requests ==> twice.heap[id] == once.heap[id])
  {
    ExpireAt(m, first, id);
    ExpireAt(m, second, id);
    ExpireAt(Expire(m, first), second, id);
    hide Expire;
  }

  lemma ExpireAddsNothing(m: Manager, now: Time)
    requires WellFormed(m)
    ensures var e := Expire(m, now); e.requests <= m.requests && e.heap.Keys == m.heap.Keys && e.cache == m.cache && e.clock == now
  {
  }

  /** How often expiry ran in between does not matter: two passes retain what the later one alone would, unchanged. */
  lemma ExpireComposes(m: Manager, first: Time, second: Time)
    requires WellFormed(m) && first <= second
    ensures var twice, once := Expire(Expire(m, first), second), Expire(m, second);
            twice.requests == once.requests && forall id | id in once.requests :: twice.heap[id] == once.heap[id]
  {
    hide Expire;
    ExpireAddsNothing(m, first);
    ExpireAddsNothing(m, second);
    ExpireAddsNothing(Expire(m, first), second);
    var twice, once := Expire(Expire(m, first), second), Expire(m, second);
    forall id | id in m.requests
      ensures (id in twice.requests <==> id in once.requests) && (id in once.requests ==> twice.heap[id] == once.heap[id])
    {
      ExpireComposesAt(m, first, second, id);
    }
  }

  /** A look-up returns details exactly for the unexpired snapshot stored under that very request, node and identity. */
  lemma LookIsExact(m: Manager, node: string, id: string, uid: Resolved, now: Time, seen: Time, last: Time)
    requires Inv(m) && m.clock <= now <= seen <= last
    ensures var r := ResultFor(m, node, id, uid, now, seen, last).1;
            && (r.details.Some? <==> Available(m) && uid.Some? && Servable(m, node, id, uid.value, last))
            && (r.details.Some? ==> r.details == Some(m.cache.entries[node]) && r.requestId == id && r.node == node && r.state.Complete?)
  {
    hide Expire, Invalidate, PendingIsActive, DispatchIsOwned, ContextsAreSettled;
    if uid.Some? {
      ServableSurvivesExpiry(m, node, id, uid.value, now, last);
    }
    if id in m.heap {
      ExpireAt(m, now, id);
    }
    if Available(m) && id in Expire(m, now).requests && uid != Some(Expire(m, now).heap[id].uid) {
      InvalidatedIsUnavailable(Expire(m, now), id, seen);
    }
    ExpireAddsNothing(m, now);
  }

  lemma InvalidatedIsUnavailable(m: Manager, id: string, now: Time)
    requires WellFormed(m) && id in m.heap
    ensures id in Invalidate(m, id, now).heap && Invalidate(m, id, now).heap[id].state.Unavailable?
  {
  }

  lemma AnswerIsExact(c: Manager, node: string, force: bool, uid: string, newId: string, seen: Time, last: Time)
    requires Inv(c) && Available(c) && newId !in c.heap && c.clock <= seen <= last
    ensures var r := Answered(c, node, force, uid, newId, seen, last).1;
            && (r.details.Some? <==>
                  !force && c.cache.Live(node, last) && Servable(c, node, c.cache.entries[node].requestId, uid, last))
            && (r.details.Some? ==>
                  r.details == Some(c.cache.entries[node]) && r.node == node && r.requestId == c.cache.entries[node].requestId)
            && (r.details.None? ==> r.state.Pending? || (r.state.Expired? && c.cache.Live(node, seen) && !c.cache.Live(node, last)))
            && (r.state.Pending? ==> var c' := Answered(c, node, force, uid, newId, seen, last).0;
                                     node in c'.active && c'.active[node] == r.requestId)
  {
    if c.cache.Live(node, seen) {
      assert Backed(c, c.cache.entries[node]);
    }
    if node in c.active {
      assert c.heap[c.active[node]].state.Pending?;
    }
  }

  /** A viewer's request is answered from the cache exactly when allowed and the snapshot is of the resolved identity. */
  lemma AskIsExact(m: Manager, node: string, force: bool, uid: Resolved, newId: string,
                   now: Time, tick: string -> Time, seen: Time, last: Time, id: string)
    requires Inv(m) && newId !in m.heap && m.clock <= now && Between(now, tick, seen) && seen <= last
    requires node in m.cache.entries ==> id == m.cache.entries[node].requestId
    ensures var r := Requested(m, node, force, uid, newId, now, tick, seen, last).1;
            && (r.details.Some? <==>
                  Available(m) && !force && uid.Some? && uid.value != "" && Servable(m, node, id, uid.value, last))
            && (r.details.Some? ==> r.details == Some(m.cache.entries[node]) && r.requestId == id && r.node == node)
  {
    if Available(m) && uid.Some? && uid.value != "" {
      PreparedServes(m, node, force, uid.value, now, tick, seen, last, id);
      hide Prepared, Answered, Servable;
      AnswerIsExact(Prepared(m, node, force, uid.value, now, tick, seen), node, force, uid.value, newId, seen, last);
    }
  }

  /** The sections before the answer keep exactly the servable snapshots. */
  lemma PreparedServes(m: Manager, node: string, force: bool, uid: string, now: Time, tick: string -> Time, seen: Time, last: Time, id: string)
    requires Inv(m) && m.clock <= now && Between(now, tick, seen) && seen <= last && Available(m)
    requires node in m.cache.entries ==> id == m.cache.entries[node].requestId
    ensures var c := Prepared(m, node, force, uid, now, tick, seen);
            && Inv(c) && Available(c) && c.heap.Keys == m.heap.Keys && c.clock <= seen
            && (c.cache.Live(node, last) ==> c.cache.entries[node] == m.cache.entries[node])
            && (c.cache.Live(node, last) && Servable(c, node, c.cache.entries[node].requestId, uid, last)
                <==> Servable(m, node, id, uid, last))
  {
    hide Futures, Expire, InvalidateAll, PendingIsActive, CacheIsBacked, DispatchIsOwned, ContextsAreSettled;
    var e := Expire(m, now);
    Reflexive(m);
    ExpireKeeps(m, m, now);
    FutureIsValid(m, e);
    PreparingKeeps(m, m, node, force, uid, now, tick, seen);
    FutureIsValid(m, Prepared(m, node, force, uid, now, tick, seen));
    ServableSurvivesExpiry(m, node, id, uid, now, last);
    ServableSurvivesStrangers(e, node, id, uid, tick, now, last);
    ExpireAddsNothing(m, now);
    InvalidationOnlyEvicts(e, Strangers(e, node, uid), tick);
  }

  /** The node has a request open for this identity that is not yet overdue. */
  ghost predicate Joinable(m: Manager, node: string, uid: string, now: Time)
    requires WellFormed(m)
  {
    node in m.active && m.heap[m.active[node]].uid == uid && now < m.heap[m.active[node]].deadline
  }

  lemma ExpiryLeavesOnTime(m: Manager, node: string, now: Time)
    requires Inv(m)
    ensures var e := Expire(m, now);
            && (node in e.active <==> node in m.active && now < m.heap[m.active[node]].deadline)
            && (node in e.active ==> e.active[node] == m.active[node] && e.heap[e.active[node]] == m.heap[m.active[node]]
                                     && e.active[node] in e.requests && e.heap[e.active[node]].node == node && e.heap[e.active[node]].state.Pending?)
            && e.workers == m.workers && e.timeout == m.timeout && e.heap.Keys == m.heap.Keys
  {
    hide CacheIsBacked, DispatchIsOwned, ContextsAreSettled;
  }

  lemma StrangersLeave(e: Manager, node: string, uid: string, tick: string -> Time)
    requires WellFormed(e)
    requires node in e.active ==> e.active[node] in e.requests && e.heap[e.active[node]].node == node && e.heap[e.active[node]].state.Pending?
    ensures var i := InvalidateAll(e, Strangers(e, node, uid), tick);
            && (node in i.active <==> node in e.active && e.heap[e.active[node]].uid == uid)
            && (node in i.active ==> i.active[node] == e.active[node] && i.heap[i.active[node]] == e.heap[e.active[node]])
            && i.workers == e.workers && i.timeout == e.timeout && i.heap.Keys == e.heap.Keys
  {
  }

  /** Expiry and the invalidation of other identities leave the node an active request exactly if it can be joined. */
  lemma PreparedActive(m: Manager, node: string, force: bool, uid: string, now: Time, tick: string -> Time, seen: Time)
    requires Inv(m)
    ensures var c := Prepared(m, node, force, uid, now, tick, seen);
            && (node in c.active <==> Joinable(m, node, uid, now))
            && (node in c.active ==> c.active[node] == m.active[node] && c.heap[c.active[node]] == m.heap[m.active[node]])
            && c.workers == m.workers && c.timeout == m.timeout && c.heap.Keys == m.heap.Keys
  {
    ExpiryLeavesOnTime(m, node, now);
    StrangersLeave(Expire(m, now), node, uid, tick);
    hide Inv, Expire, InvalidateAll, Strangers;
  }

  lemma AnswerJoinsOrOpens(c: Manager, node: string, force: bool, uid: string, newId: string, seen: Time, last: Time)
    requires Inv(c) && newId !in c.heap && c.clock <= seen && Answered(c, node, force, uid, newId, seen, last).1.state.Pending?
    ensures var (r, out) := Answered(c, node, force, uid, newId, seen, last);
            if node in c.active then
              && out.requestId == c.active[node] && out.deadline == c.heap[c.active[node]].deadline
              && r.heap == c.heap && r.workers == c.workers
            else
              && out.requestId == newId && out.deadline == last + c.timeout
              && r.heap == c.heap[newId := NewRequest(node, uid, last + c.timeout).(dispatching := true)]
              && r.active == c.active[node := newId] && r.workers == c.workers + multiset{newId}
  {
    hide DispatchIsOwned, ContextsAreSettled;
    if c.cache.Live(node, seen) {
      assert Backed(c, c.cache.entries[node]);
    }
  }

  /** Viewers share: a pending answer is the node's open request with its own deadline and no new worker, if there is one to
      join, and otherwise a new request for the resolved identity, due one timeout from now, with its one worker. */
  lemma AskJoinsOrOpens(m: Manager, node: string, force: bool, uid: string, newId: string,
                        now: Time, tick: string -> Time, seen: Time, last: Time)
    requires Inv(m) && Available(m) && newId !in m.heap && uid != "" && m.clock <= now && Between(now, tick, seen)
    requires Requested(m, node, force, Some(uid), newId, now, tick, seen, last).1.state.Pending?
    ensures var (r, out) := Requested(m, node, force, Some(uid), newId, now, tick, seen, last);
            if Joinable(m, node, uid, now) then
              && out.requestId == m.active[node] && out.deadline == m.heap[m.active[node]].deadline
              && r.heap.Keys == m.heap.Keys && r.workers == m.workers
            else
              && out.requestId == newId && out.deadline == last + m.timeout
              && newId in r.heap && r.heap[newId] == NewRequest(node, uid, last + m.timeout).(dispatching := true)
              && r.heap.Keys == m.heap.Keys + {newId}
              && node in r.active && r.active[node] == newId && r.workers == m.workers + multiset{newId}
  {
    hide Prepared, PendingIsActive, CacheIsBacked, DispatchIsOwned, ContextsAreSettled, Answered, Futures, NewRequest;
    Reflexive(m);
    PreparingKeeps(m, m, node, force, uid, now, tick, seen);
    FutureIsValid(m, Prepared(m, node, force, uid, now, tick, seen));
    PreparedActive(m, node, force, uid, now, tick, seen);
    AnswerJoinsOrOpens(Prepared(m, node, force, uid, now, tick, seen), node, force, uid, newId, seen, last);
  }

  /** A polling node is given a command exactly for its active, unexpired request whose pull failed, for its own identity. */
  lemma PollIsExact(m: Manager, node: string, uid: Resolved, now: Time, last: Time)
    requires Inv(m)
    ensures var out := PendingCommand(m, node, uid, now, last).1;
            && (out.Some? <==> !m.cancelled && uid.Some? && Joinable(m, node, uid.value, now) && m.heap[m.active[node]].poll)
            && (out.Some? ==> out.value == (m.active[node], m.heap[m.active[node]].deadline))
  {
    hide CacheIsBacked, DispatchIsOwned, ContextsAreSettled;
  }

  /** A reply takes effect exactly when its request is pending, on time, of this node and identity, and the data is usable. */
  ghost predicate Accepts(m: Manager, node: string, id: string, status: Option<NodeStatus>, uid: Resolved, now: Time) {
    && Available(m) && StillPending(m, id) && now < m.heap[id].deadline
    && m.heap[id].node == node && node != "" && uid == Some(m.heap[id].uid) && Acceptable(node, status)
  }

  /** An accepted reply is stored whole under its request for a full TTL and spares a command write in flight. */
  lemma AcceptedReply(m: Manager, node: string, id: string, status: Option<NodeStatus>, uid: Resolved, addr: nat, now: Time, last: Time)
    requires Inv(m) && m.clock <= now <= last && Accepts(m, node, id, status, uid, now)
    ensures var (r, out) := Completed(m, node, id, status, uid, addr, now, last);
            && out.Ok? && id in r.requests && r.heap[id].state.Complete? && node !in r.active
            && node in r.cache.entries
            && r.cache.entries[node] == Snapshot(node, id, status.value.timestamp, last, last + m.cache.ttl,
                                                 StatusPtr(addr, status.value), 0, None)
            && (forall n | n != node :: n in r.cache.entries <==> n in m.cache.entries)
            && (forall n | n in m.cache.entries && n != node :: r.cache.entries[n] == m.cache.entries[n])
            && r.heap[id].ctx == if m.heap[id].dispatching then Running else Cancelled
  {
    var e := Expire(m, now);
    assert !Due(m, id, now);
    assert e.heap[id] == Visited(m, now, m.requests, id);
  }

  /** Any other reply replaces no data and renews no expiry; success then means the request was complete already. */
  lemma RefusedReply(m: Manager, node: string, id: string, status: Option<NodeStatus>, uid: Resolved, addr: nat, now: Time, last: Time)
    requires Inv(m) && m.clock <= now <= last && !Accepts(m, node, id, status, uid, now)
    ensures var (r, out) := Completed(m, node, id, status, uid, addr, now, last);
            && (forall n | n in r.cache.entries :: n in m.cache.entries && r.cache.entries[n] == m.cache.entries[n])
            && (out.Ok? ==> r == Expire(m, now) && id in m.requests && m.heap[id].state.Complete?)
  {
    hide Expire, CacheIsBacked, DispatchIsOwned, ContextsAreSettled;
    var e := Expire(m, now);
    ExpireAddsNothing(m, now);
    if Available(m) && id in e.requests && e.heap[id].node == node {
      ExpireAt(m, now, id);
      if uid == Some(e.heap[id].uid) && Acceptable(node, status) && e.heap[id].state.Pending? {
        assert m.heap[id].wakeAt == m.heap[id].deadline;
        assert node == "";
      }
    }
  }

  lemma InvalidationOnlyEvicts(m: Manager, ids: set<string>, tick: string -> Time)
    requires WellFormed(m)
    ensures var r := InvalidateAll(m, ids, tick);
            forall n | n in r.cache.entries :: n in m.cache.entries && r.cache.entries[n] == m.cache.entries[n]
  {
  }

  /** Invalidation completes nothing. */
  lemma InvalidationCompletesNothing(m: Manager, ids: set<string>, tick: string -> Time, id: string)
    requires WellFormed(m) && id in m.heap && !m.heap[id].state.Complete?
    ensures id in InvalidateAll(m, ids, tick).heap && !InvalidateAll(m, ids, tick).heap[id].state.Complete?
  {
  }

  lemma PreparationCompletesNothing(m: Manager, node: string, uid: string, now: Time, tick: string -> Time, seen: Time, id: string)
    requires WellFormed(m) && id in m.heap && !m.heap[id].state.Complete?
    ensures var c := Prepared(m, node, false, uid, now, tick, seen); id in c.heap && !c.heap[id].state.Complete?
  {
    hide Expire, InvalidateAll, WellFormed;
    ExpireAt(m, now, id);
    InvalidationCompletesNothing(Expire(m, now), Strangers(Expire(m, now), node, uid), tick, id);
  }

  lemma ExaminationCompletesNothing(m: Manager, node: string, uid: string, now: Time, tick: string -> Time, seen: Time, id: string)
    requires WellFormed(m) && id in m.heap && !m.heap[id].state.Complete?
    ensures var d := Examined(m, node, uid, now, tick, seen); id in d.heap && !d.heap[id].state.Complete?
  {
    PreparationCompletesNothing(m, node, uid, now, tick, seen, id);
    var c, d := Prepared(m, node, false, uid, now, tick, seen), Examined(m, node, uid, now, tick, seen);
    if d != c {
      RevokingCompletesNothing(c, c.cache.entries[node].requestId, seen, id);
      hide Prepared, InvalidateOnce;
    }
  }

  lemma RevokingCompletesNothing(m: Manager, x: string, now: Time, id: string)
    requires WellFormed(m) && x in m.heap && id in m.heap && !m.heap[id].state.Complete?
    ensures id in Invalidate(m, x, now).heap && !Invalidate(m, x, now).heap[id].state.Complete?
  {
  }

  /** A legacy publication never completes a pending request. */
  lemma PublicationCompletesNothing(m: Manager, node: string, status: Option<NodeStatus>, revision: nat, identity: Option<Digest>,
                                    base: Option<StatusPtr>, uid: Resolved, newId: string, addr: nat,
                                    now: Time, tick: string -> Time, seen: Time, last: Time, id: string)
    requires WellFormed(m) && newId !in m.heap && StillPending(m, id)
    ensures var r := Observed(m, node, status, revision, identity, base, uid, newId, addr, now, tick, seen, last).0;
            id in r.heap && !r.heap[id].state.Complete?
  {
    hide Expire, Forget, Examined, Stored, WellFormed;
    if !Available(m) || status.None? || status.value.nodeInfo.name != node || revision == 0 {
      ExpireAt(m, now, id);
    } else if uid.None? || uid.value == "" {
      ExpireAt(m, now, id);
      ForgettingCompletesNothing(Expire(m, now), node, tick, id);
    } else {
      var d := Examined(m, node, uid.value, now, tick, seen);
      ExaminationCompletesNothing(m, node, uid.value, now, tick, seen, id);
      StoringCompletesNothing(d, node, status.value, revision, identity, base, uid.value, newId, addr, seen, last, id);
    }
  }

  lemma StoringCompletesNothing(d: Manager, node: string, status: NodeStatus, revision: nat, identity: Option<Digest>,
                                base: Option<StatusPtr>, uid: string, newId: string, addr: nat, seen: Time, last: Time, id: string)
    requires WellFormed(d) && id in d.heap && id != newId && !d.heap[id].state.Complete?
    ensures var r := Stored(d, node, status, revision, identity, base, uid, newId, addr, seen, last).0;
            id in r.heap && !r.heap[id].state.Complete?
  {
  }

  lemma ForgettingCompletesNothing(m: Manager, node: string, tick: string -> Time, id: string)
    requires WellFormed(m) && id in m.heap && !m.heap[id].state.Complete?
    ensures id in Forget(m, node, tick).heap && !Forget(m, node, tick).heap[id].state.Complete?
  {
  }

  /** A failed refresh ends only its own request and leaves an older, still valid snapshot alone. */
  lemma FailureSparesCache(m: Manager, node: string, id: string, message: string, uid: Resolved, now: Time, last: Time)
    requires Inv(m) && StillPending(m, id)
    ensures var (r, out) := Failed(m, node, id, message, uid, now, last);
            && (out.Ok? ==> r.cache == m.cache && r.heap[id].state.Unavailable? && r.heap[id].message == Reported(message) && node !in r.active)
            && (out.Ok? ==> r.heap[id].ctx == if m.heap[id].dispatching then Running else Cancelled)
            && (out.Ok? <==> Available(m) && message != "" && m.heap[id].node == node && uid == Some(m.heap[id].uid)
                             && now < m.heap[id].deadline)
  {
    ExpireAt(m, now, id);
    hide Expire, Invalidate, CacheIsBacked, DispatchIsOwned, ContextsAreSettled;
  }

  // ----- Along whole runs -----

  lemma PendingAnswerIsPending(m: Manager, node: string, id: string, uid: Resolved, now: Time, seen: Time, last: Time)
    requires Inv(m) && m.clock <= now <= seen <= last && ResultFor(m, node, id, uid, now, seen, last).1.state.Pending?
    ensures StillPending(ResultFor(m, node, id, uid, now, seen, last).0, id)
  {
  }

  /** A waiter that saw Pending together with the wake channel finds that channel closed once the request left Pending. */
  lemma NoLostWakeup(states: seq<Manager>, events: seq<Event>, i: nat, j: nat)
    requires IsRun(states, events) && Inv(states[0]) && i < j < |states| && events[i].Look?
    requires var e := events[i];
             ResultFor(states[i], e.node, e.id, e.uid, e.now, e.seen, e.last).1.state.Pending?
    requires !StillPending(states[j], events[i].id)
    ensures states[i + 1].updates < states[j].updates
  {
    RunKeeps(states, events, i, i);
    RunKeeps(states, events, i + 1, j);
    var e := events[i];
    hide Inv;
    PendingAnswerIsPending(states[i], e.node, e.id, e.uid, e.now, e.seen, e.last);
    assert StillPending(states[i + 1], e.id);
  }

  /** After the run loop has closed the manager nothing is retained, cached or dispatched again. */
  lemma ClosedIsFinal(states: seq<Manager>, events: seq<Event>, i: nat, j: nat)
    requires IsRun(states, events) && Inv(states[0]) && i <= j < |states| && states[i].closed
    ensures states[j].requests == {} && states[j].active == map[] && states[j].cache.entries == map[]
    ensures states[j].workers <= states[i].workers
  {
    RunKeeps(states, events, i, j);
    hide CacheIsBacked, DispatchIsOwned, ContextsAreSettled, RequestsEvolve, CacheEvolves;
  }

  /** Throughout a run a request has at most one worker, and one that settled without a worker has a dead context. */
  lemma DispatchOwnership(states: seq<Manager>, events: seq<Event>, j: nat, id: string)
    requires IsRun(states, events) && Inv(states[0]) && j < |states|
    ensures states[j].workers[id] <= 1
    ensures id in states[j].heap ==> (states[j].workers[id] == 1 <==> states[j].heap[id].dispatching)
    ensures id in states[j].heap && !states[j].heap[id].state.Pending? && id !in states[j].workers ==> !states[j].heap[id].ctx.Running?
    ensures StillPending(states[j], id) && Available(states[j]) && states[j].heap[id].retry ==> id in states[j].workers
  {
    RunKeeps(states, events, j, j);
    hide Evolves, CacheIsBacked;
  }

  /** Life only moves forward, deadlines are fixed, and an expiry changes only through a store received since. */
  lemma MonotoneLife(states: seq<Manager>, events: seq<Event>, i: nat, j: nat, id: string, node: string)
    requires IsRun(states, events) && Inv(states[0]) && i <= j < |states|
    ensures id in states[i].heap ==>
              id in states[j].heap && Rank(states[i].heap[id].state) <= Rank(states[j].heap[id].state)
              && states[j].heap[id].deadline == states[i].heap[id].deadline
    ensures node in states[j].cache.entries ==>
              (node in states[i].cache.entries && states[i].cache.entries[node] == states[j].cache.entries[node])
              || states[i].clock <= states[j].cache.entries[node].receivedAt
    ensures node in states[j].cache.entries ==>
              states[j].cache.entries[node].expiresAt == states[j].cache.entries[node].receivedAt + states[0].cache.ttl
  {
    RunKeeps(states, events, i, j);
    RunKeeps(states, events, 0, j);
    hide PendingIsActive, DispatchIsOwned, ContextsAreSettled;
  }
}
