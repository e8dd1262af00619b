/**
  The leader-local node-detail lifecycle as values: a TTL cache keyed by node and a
  request manager over it. Each function is one mutex section; the clock readings taken
  inside it are its `now`-like parameters, in the order they are taken, and the resolver's
  answer is a parameter. A request record is identified by its request ID, which stands for
  the Go pointer: `heap` holds every record ever made, `requests` says which the manager retains.
*/
module DetailSpec {
  import opened Prelude
  import opened NodeStatusTypes

  // ----- TTL cache -----

  datatype Snapshot = Snapshot(
    node: string, requestId: string, collectedAt: Time, receivedAt: Time, expiresAt: Time,
    status: StatusPtr, legacyRevision: nat, peerIdentity: Option<Digest>)

  datatype Cache = Cache(ttl: Time, entries: map<string, Snapshot>) {

    predicate Live(node: string, now: Time) {
      node in entries && now < entries[node].expiresAt
    }

    /** A read drops the entry at its deadline and never renews it. */
    function AfterGet(node: string, now: Time): Cache {
      if Live(node, now) then this else Delete(node)
    }

    function Delete(node: string): Cache {
      this.(entries := entries - {node})
    }

    /** A read that also drops an entry stored under `id`. */
    function AfterEvict(node: string, id: string, now: Time): Cache {
      if Live(node, now) && entries[node].requestId != id then this else Delete(node)
    }

    function Clear(): Cache {
      this.(entries := map[])
    }

    function Expire(now: Time): Cache {
      this.(entries := map n | n in entries && now < entries[n].expiresAt :: entries[n])
    }

    /** A store that names a base succeeds only while that very status is cached and unexpired. */
    predicate Stores(node: string, expected: Option<StatusPtr>, now: Time) {
      node != "" && (expected.Some? ==> Live(node, now) && entries[node].status.addr == expected.value.addr)
    }

    function Fresh(node: string, id: string, status: StatusPtr, revision: nat, identity: Option<Digest>, now: Time): Snapshot {
      Snapshot(node, id, status.value.timestamp, now, now + ttl, status, revision, identity)
    }

    function Put(s: Snapshot): Cache {
      this.(entries := entries[s.node := s])
    }
  }

  /** Why an operation was refused. */
  datatype Refusal =
    | LeaderUnavailable | RequestUnavailable | NodeReplaced | UnusableReply | NotPending
    | NoNodeName | NoStatus | BaseUnavailable | BadPublication | NoIdentity

  // ----- Requests -----

  datatype State = Pending | Complete | Expired | Unavailable | Retryable

  /** A request made for a legacy publication owns no context. */
  datatype Context = NoContext | Running | Cancelled {
    function Cancel(): Context {
      if NoContext? then NoContext else Cancelled
    }
  }

  /** The text shown beside a state. */
  datatype Message =
    | Nothing | HasExpired | NodeWasReplaced | DetailsGone | LeaderIsUnavailable | IdentityUnavailable | NoLongerKnown
    | Reported(text: string) | PullFailure(text: string)

  datatype Request = Request(
    node: string, uid: string, deadline: Time, state: State, message: Message, wakeAt: Time,
    poll: bool, ctx: Context, dispatching: bool, retry: bool)

  datatype Manager = Manager(
    timeout: Time, cancelled: bool, closed: bool,
    heap: map<string, Request>, requests: set<string>, active: map<string, string>,
    cache: Cache, updates: nat, workers: multiset<string>, clock: Time)

  /** What a viewer gets back; `details` is present only for a complete request. */
  datatype Result = Result(node: string, requestId: string, deadline: Time, state: State, error: Message, details: Option<Snapshot>)

  /** What a waiter gets: everything about a result but the payload of its details. */
  datatype ResultMetadata = ResultMetadata(
    node: string, requestId: string, deadline: Time, state: State, error: Message, details: Option<SnapshotInfo>)

  datatype SnapshotInfo = SnapshotInfo(node: string, requestId: string, collectedAt: Time, receivedAt: Time, expiresAt: Time)

  function WithoutPayload(r: Result): ResultMetadata {
    ResultMetadata(r.node, r.requestId, r.deadline, r.state, r.error,
             if r.details.None? then None
             else
               var s := r.details.value;
               Some(SnapshotInfo(s.node, s.requestId, s.collectedAt, s.receivedAt, s.expiresAt)))
  }

  /** The resolver's answer: an identity, or None when the lookup fails. */
  type Resolved = Option<string>

  predicate Available(m: Manager) {
    !m.cancelled && !m.closed
  }

  predicate WellFormed(m: Manager) {
    && m.requests <= m.heap.Keys
    && (forall n | n in m.active :: m.active[n] in m.heap)
    && m.timeout > 0
    && m.cache.ttl > 0
  }

  function Failure(node: string, id: string, state: State, message: Message): Result {
    Result(node, id, 0, state, message, None)
  }

  function Notify(m: Manager): Manager {
    m.(updates := m.updates + 1)
  }

  /** Removes the node's active request if it is `id`. */
  function Deactivate(active: map<string, string>, node: string, id: string): map<string, string> {
    if node in active && active[node] == id then active - {node} else active
  }

  // ----- Expiry -----

  predicate Due(m: Manager, id: string, now: Time)
    requires WellFormed(m)
  {
    id in m.requests && m.heap[id].wakeAt <= now
  }

  predicate Lapses(m: Manager, id: string, now: Time)
    requires WellFormed(m)
  {
    Due(m, id, now) && (m.heap[id].state.Pending? || m.heap[id].state.Complete?)
  }

  function Lapse(r: Request, timeout: Time): Request {
    r.(ctx := r.ctx.Cancel(), state := Expired, message := HasExpired,
       poll := false, wakeAt := r.wakeAt + timeout)
  }

  /** The record of `id` after the expiry pass visited the requests in `done`. */
  function Visited(m: Manager, now: Time, done: set<string>, id: string): Request
    requires WellFormed(m) && id in m.heap
  {
    if id in done && Lapses(m, id, now) then Lapse(m.heap[id], m.timeout) else m.heap[id]
  }

  /** The expiry pass over the requests in `done`, whatever order they were visited in. */
  function ExpireOver(m: Manager, now: Time, done: set<string>): (r: Manager)
    requires WellFormed(m)
    ensures WellFormed(r)
  {
    m.(heap := (map id | id in m.heap :: Visited(m, now, done, id)),
       requests := (set id | id in m.requests && (id in done ==> now < Visited(m, now, done, id).wakeAt)),
       active := (map n | n in m.active &&
         !(m.active[n] in done && Lapses(m, m.active[n], now) && m.heap[m.active[n]].node == n) :: m.active[n]))
  }

  function Expire(m: Manager, now: Time): (r: Manager)
    requires WellFormed(m)
    ensures WellFormed(r)
  {
    var e := ExpireOver(m, now, m.requests).(clock := now);
    if exists id :: id in m.requests && Due(m, id, now) then Notify(e) else e
  }

  // ----- Invalidation -----

  function Revoke(r: Request, wakeAt: Time): Request {
    r.(ctx := r.ctx.Cancel(), state := Unavailable, message := NodeWasReplaced,
       poll := false, wakeAt := wakeAt)
  }

  /** One invalidation: the record is revoked, its node freed, and its own or a lapsed cache entry dropped. */
  function InvalidateOnce(m: Manager, id: string, now: Time): (r: Manager)
    requires WellFormed(m) && id in m.heap
    ensures WellFormed(r)
  {
    var r := m.heap[id];
    if r.state.Unavailable? then m
    else
      Notify(m.(heap := m.heap[id := Revoke(r, now + m.timeout)],
                active := Deactivate(m.active, r.node, id),
                cache := m.cache.AfterEvict(r.node, id, now)))
  }

  function Invalidate(m: Manager, id: string, now: Time): (r: Manager)
    requires WellFormed(m) && id in m.heap
    ensures WellFormed(r)
  {
    InvalidateOnce(m, id, now).(clock := now)
  }

  /** The requests of `ids` that an invalidation still changes. */
  function Invalidated(m: Manager, ids: set<string>): set<string> {
    set id | id in ids && id in m.heap && !m.heap[id].state.Unavailable?
  }

  /** Invalidating one of `gone` reads the node's cache entry: a lapsed entry or the request's own goes. */
  predicate Evicted(m: Manager, gone: set<string>, node: string, s: Snapshot, tick: string -> Time) {
    exists id :: id in gone && id in m.heap && m.heap[id].node == node && (s.expiresAt <= tick(id) || s.requestId == id)
  }

  /** Invalidating all of `ids` in any order; `tick(id)` is the clock reading taken for `id`. */
  function InvalidateAll(m: Manager, ids: set<string>, tick: string -> Time): (r: Manager)
    requires WellFormed(m)
    ensures WellFormed(r)
  {
    var gone := Invalidated(m, ids);
    m.(heap := (map id | id in m.heap ::
         if id in gone then Revoke(m.heap[id], tick(id) + m.timeout) else m.heap[id]),
       active := (map n | n in m.active &&
         !(m.active[n] in gone && m.heap[m.active[n]].node == n) :: m.active[n]),
       cache := m.cache.(entries := (map n | n in m.cache.entries &&
         !Evicted(m, gone, n, m.cache.entries[n], tick) :: m.cache.entries[n])),
       updates := m.updates + |gone|)
  }

  function OfNode(m: Manager, node: string): set<string>
    requires WellFormed(m)
  {
    set id | id in m.requests && m.heap[id].node == node
  }

  /** Retained requests of the node made for another identity. */
  function Strangers(m: Manager, node: string, uid: string): set<string>
    requires WellFormed(m)
  {
    set id | id in OfNode(m, node) && m.heap[id].uid != uid
  }

  function Forget(m: Manager, node: string, tick: string -> Time): Manager
    requires WellFormed(m)
  {
    var f := InvalidateAll(m, OfNode(m, node), tick);
    f.(cache := f.cache.Delete(node))
  }

  // ----- Results -----

  function ResultOf(m: Manager, id: string, now: Time): Result
    requires id in m.heap
  {
    var r := m.heap[id];
    var plain := Result(r.node, id, r.deadline, r.state, r.message, None);
    if !r.state.Complete? then plain
    else if m.cache.Live(r.node, now) && m.cache.entries[r.node].requestId == id then
      plain.(details := Some(m.cache.entries[r.node]))
    else
      plain.(state := Expired, error := DetailsGone)
  }

  /** Reading the result of a complete request reads the cache, which drops a lapsed entry. */
  function AfterResult(m: Manager, id: string, now: Time): Manager
    requires id in m.heap
  {
    if m.heap[id].state.Complete? then m.(cache := m.cache.AfterGet(m.heap[id].node, now), clock := now) else m.(clock := now)
  }

  // ----- Dispatch -----

  function StartDispatch(m: Manager, id: string): Manager
    requires id in m.heap
  {
    m.(heap := m.heap[id := m.heap[id].(dispatching := true, retry := false, poll := false)],
       workers := m.workers + multiset{id})
  }

  /** The last section of a dispatch worker: release ownership, then serve a retry that came meanwhile. */
  function FinishDispatch(m: Manager, id: string): Manager
    requires id in m.heap
  {
    var r := m.heap[id].(dispatching := false);
    var r' := if r.state.Pending? then r else r.(ctx := r.ctx.Cancel());
    var m' := m.(heap := m.heap[id := r'], workers := m.workers - multiset{id});
    if r.node in m.active && m.active[r.node] == id && r.retry && Available(m) then StartDispatch(m', id) else m'
  }

  /** The fallback section of `dispatch`: an open pull failure makes the request pollable. */
  function PullFailed(m: Manager, node: string, id: string, message: string, now: Time): Manager
    requires WellFormed(m)
  {
    var e := Expire(m, now);
    if node in e.active && e.active[node] == id && !m.cancelled then
      Notify(e.(heap := e.heap[id := e.heap[id].(poll := true, message := PullFailure(message))]))
    else e
  }

  function Retry(m: Manager, node: string, now: Time): Manager
    requires WellFormed(m)
  {
    var e := Expire(m, now);
    if node in e.active && Available(m) then
      var id := e.active[node];
      var e' := e.(heap := e.heap[id := e.heap[id].(retry := true)]);
      if e.heap[id].dispatching then e' else StartDispatch(e', id)
    else e
  }

  // ----- Viewer and node entry points -----

  function NewRequest(node: string, uid: string, deadline: Time): Request {
    Request(node, uid, deadline, Pending, Nothing, deadline, false, Running, false, false)
  }

  /** A viewer's request after expiry, invalidation of other identities and, unless forced, the cache read. */
  function Prepared(m: Manager, node: string, force: bool, uid: string, now: Time, tick: string -> Time, seen: Time): (r: Manager)
    requires WellFormed(m)
    ensures WellFormed(r)
  {
    var e := Expire(m, now);
    var i := InvalidateAll(e, Strangers(e, node, uid), tick);
    if force then i else i.(cache := i.cache.AfterGet(node, seen), clock := seen)
  }

  /** The retained request behind the node's unexpired snapshot, when it was made for this identity. */
  predicate Cached(m: Manager, node: string, uid: string, now: Time)
    requires WellFormed(m)
  {
    m.cache.Live(node, now) && m.cache.entries[node].requestId in m.requests && m.heap[m.cache.entries[node].requestId].uid == uid
  }

  function Opened(m: Manager, node: string, uid: string, newId: string, now: Time): Manager {
    Notify(m.(heap := m.heap[newId := NewRequest(node, uid, now + m.timeout)], requests := m.requests + {newId},
              active := m.active[node := newId], clock := now))
  }

  /** Answer from the cache, else join the active request, else open one under the unused ID `newId`. */
  function Answered(c: Manager, node: string, force: bool, uid: string, newId: string, seen: Time, last: Time): (Manager, Result)
    requires WellFormed(c)
  {
    if !force && Cached(c, node, uid, seen) then
      var id := c.cache.entries[node].requestId;
      (AfterResult(c, id, last), ResultOf(c, id, last))
    else if node in c.active then
      (AfterResult(c, c.active[node], last), ResultOf(c, c.active[node], last))
    else
      var n := Opened(c, node, uid, newId, last);
      (StartDispatch(n, newId), ResultOf(n, newId, last))
  }

  function Requested(m: Manager, node: string, force: bool, uid: Resolved, newId: string,
                     now: Time, tick: string -> Time, seen: Time, last: Time): (Manager, Result)
    requires WellFormed(m) && newId !in m.heap
  {
    if !Available(m) then (m, Failure(node, "", Retryable, LeaderIsUnavailable))
    else if uid.None? || uid.value == "" then
      (Expire(m, now), Failure(node, "", Unavailable, IdentityUnavailable))
    else Answered(Prepared(m, node, force, uid.value, now, tick, seen), node, force, uid.value, newId, seen, last)
  }

  function ResultFor(m: Manager, node: string, id: string, uid: Resolved, now: Time, seen: Time, last: Time): (Manager, Result)
    requires WellFormed(m)
  {
    if !Available(m) then (m, Failure(node, id, Retryable, LeaderIsUnavailable))
    else
      var e := Expire(m, now);
      if id !in e.requests || e.heap[id].node != node then
        (e, Failure(node, id, Retryable, NoLongerKnown))
      else
        var i := if uid != Some(e.heap[id].uid) then Invalidate(e, id, seen) else e;
        (AfterResult(i, id, last), ResultOf(i, id, last))
  }

  predicate Acceptable(node: string, status: Option<NodeStatus>) {
    status.Some? && status.value.nodeInfo.name == node && status.value.fetchError == ""
  }

  /** A settled record keeps its context while a command write is still in flight. */
  function Settle(r: Request, state: State, message: Message, wakeAt: Time): Request {
    r.(state := state, message := message, poll := false, wakeAt := wakeAt,
       ctx := if r.dispatching then r.ctx else r.ctx.Cancel())
  }

  function Settled(e: Manager, id: string, state: State, message: Message, wakeAt: Time, cache: Cache, now: Time): Manager
    requires id in e.heap
  {
    Notify(e.(heap := e.heap[id := Settle(e.heap[id], state, message, wakeAt)], active := e.active - {e.heap[id].node},
              cache := cache, clock := now))
  }

  /** The effect of an acceptable reply on its request; `addr` is where the cache keeps its copy of the status. */
  function Fulfilled(e: Manager, id: string, status: NodeStatus, addr: nat, now: Time): (Manager, Outcome<(), Refusal>)
    requires id in e.heap
  {
    var r := e.heap[id];
    if r.state.Complete? then (e, Ok(()))
    else if !r.state.Pending? then (e, Err(NotPending))
    else if !e.cache.Stores(r.node, None, now) then (e, Err(NoNodeName))
    else
      var s := e.cache.Fresh(r.node, id, StatusPtr(addr, status), 0, None, now);
      (Settled(e, id, Complete, Nothing, s.expiresAt, e.cache.Put(s), now), Ok(()))
  }

  function Completed(m: Manager, node: string, id: string, status: Option<NodeStatus>, uid: Resolved, addr: nat,
                     now: Time, last: Time): (Manager, Outcome<(), Refusal>)
    requires WellFormed(m)
  {
    var e := Expire(m, now);
    if !Available(m) || id !in e.requests || e.heap[id].node != node then
      (e, Err(RequestUnavailable))
    else if uid != Some(e.heap[id].uid) then
      (Invalidate(e, id, last), Err(NodeReplaced))
    else if !Acceptable(node, status) then
      (e, Err(UnusableReply))
    else Fulfilled(e, id, status.value, addr, last)
  }

  /** The effect of a reported failure on its request. */
  function Abandoned(e: Manager, id: string, message: string, now: Time): (Manager, Outcome<(), Refusal>)
    requires id in e.heap
  {
    var r := e.heap[id];
    if r.state.Complete? || r.state.Unavailable? then (e, Ok(()))
    else if !r.state.Pending? then (e, Err(NotPending))
    else (Settled(e, id, Unavailable, Reported(message), now + e.timeout, e.cache, now), Ok(()))
  }

  function Failed(m: Manager, node: string, id: string, message: string, uid: Resolved, now: Time, last: Time): (Manager, Outcome<(), Refusal>)
    requires WellFormed(m)
  {
    var e := Expire(m, now);
    if !Available(m) || id !in e.requests || e.heap[id].node != node || message == "" then
      (e, Err(RequestUnavailable))
    else if uid != Some(e.heap[id].uid) then
      (Invalidate(e, id, last), Err(NodeReplaced))
    else Abandoned(e, id, message, last)
  }

  /** The pollable command of a node, if its pull failed: the request's ID and deadline. */
  function PendingCommand(m: Manager, node: string, uid: Resolved, now: Time, last: Time): (Manager, Option<(string, Time)>)
    requires WellFormed(m)
  {
    var e := Expire(m, now);
    if m.cancelled || node !in e.active || !e.heap[e.active[node]].poll then (e, None)
    else
      var id := e.active[node];
      if uid != Some(e.heap[id].uid) then (Invalidate(e, id, last), None) else (e, Some((id, e.heap[id].deadline)))
  }

  function NodeInvalidated(m: Manager, node: string, uid: string, tick: string -> Time): Manager
    requires WellFormed(m)
  {
    InvalidateAll(m, (set id | id in OfNode(m, node) && m.heap[id].uid == uid), tick)
  }

  // ----- Legacy publications -----

  /** Whether the cached association can carry a legacy publication for this identity. */
  predicate Reusable(m: Manager, node: string, uid: string, now: Time)
    requires WellFormed(m)
  {
    && m.cache.Live(node, now)
    && m.cache.entries[node].requestId in m.requests
    && m.heap[m.cache.entries[node].requestId].uid == uid
    && m.heap[m.cache.entries[node].requestId].state.Complete?
  }

  /** A publication after expiry, invalidation of other identities and the cache read. */
  function Examined(m: Manager, node: string, uid: string, now: Time, tick: string -> Time, seen: Time): (r: Manager)
    requires WellFormed(m)
    ensures WellFormed(r)
  {
    var e := Expire(m, now);
    var i := InvalidateAll(e, Strangers(e, node, uid), tick);
    var c := i.(cache := i.cache.AfterGet(node, seen), clock := seen);
    if c.cache.Live(node, seen) && c.cache.entries[node].requestId in c.requests && c.heap[c.cache.entries[node].requestId].uid != uid
    then Invalidate(c, c.cache.entries[node].requestId, seen) else c
  }

  function Associated(d: Manager, id: string, r: Request, s: Snapshot): Manager {
    Notify(d.(heap := d.heap[id := r.(wakeAt := s.expiresAt)], requests := d.requests + {id},
              cache := d.cache.Put(s), clock := s.receivedAt))
  }

  /** Store a publication under the cached association, or under a complete record made for it. */
  function Stored(d: Manager, node: string, status: NodeStatus, revision: nat, identity: Option<Digest>, base: Option<StatusPtr>,
                  uid: string, newId: string, addr: nat, seen: Time, last: Time): (Manager, Outcome<(), Refusal>)
    requires WellFormed(d)
  {
    var reuse := Reusable(d, node, uid, seen);
    var id := if reuse then d.cache.entries[node].requestId else newId;
    if !d.cache.Stores(node, base, last) then
      (d.(clock := last), Err(if node == "" then NoNodeName else BaseUnavailable))
    else
      var s := d.cache.Fresh(node, id, StatusPtr(addr, status), revision, identity, last);
      var r := if reuse then d.heap[id] else Request(node, uid, 0, Complete, Nothing, 0, false, NoContext, false, false);
      (Associated(d, id, r, s), Ok(()))
  }

  function Observed(m: Manager, node: string, status: Option<NodeStatus>, revision: nat, identity: Option<Digest>,
                    base: Option<StatusPtr>, uid: Resolved, newId: string, addr: nat,
                    now: Time, tick: string -> Time, seen: Time, last: Time): (Manager, Outcome<(), Refusal>)
    requires WellFormed(m) && newId !in m.heap
  {
    if !Available(m) then (Expire(m, now), Err(LeaderUnavailable))
    else if status.None? || status.value.nodeInfo.name != node || revision == 0 then
      (Expire(m, now), Err(BadPublication))
    else if uid.None? || uid.value == "" then
      (Forget(Expire(m, now), node, tick).(clock := seen), Err(NoIdentity))
    else Stored(Examined(m, node, uid.value, now, tick, seen), node, status.value, revision, identity, base,
                uid.value, newId, addr, seen, last)
  }

  /** The current wire base of a node: only an unexpired legacy snapshot of exactly this revision. */
  function LegacyBase(m: Manager, node: string, revision: nat, uid: Resolved, seen: Time, tick: string -> Time, last: Time)
    : (Manager, Option<(StatusPtr, Option<Digest>)>)
    requires WellFormed(m)
  {
    if !Available(m) then (m, None)
    else
      var c := m.(cache := m.cache.AfterGet(node, seen), clock := seen);
      if !m.cache.Live(node, seen) || m.cache.entries[node].legacyRevision == 0
         || m.cache.entries[node].legacyRevision != revision then (c, None)
      else
        var s := m.cache.entries[node];
        if s.requestId !in m.requests || uid != Some(m.heap[s.requestId].uid) then
          (Forget(c, node, tick).(clock := last), None)
        else (c, Some((s.status, s.peerIdentity)))
  }

  // ----- Lifecycle -----

  function Cancel(m: Manager): Manager {
    m.(cancelled := true)
  }

  /** The end of the run loop: everything retained is cancelled and dropped. */
  function Shutdown(m: Manager): Manager
    requires WellFormed(m)
  {
    Notify(m.(closed := true,
              heap := (map id | id in m.heap ::
                if id in m.requests then m.heap[id].(ctx := m.heap[id].ctx.Cancel()) else m.heap[id]),
              requests := {}, active := map[], cache := m.cache.Clear()))
  }
}
