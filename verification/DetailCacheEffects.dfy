/** What each section of the detail manager does to its cache, as the status cache that is bound to it sees it. */
module DetailCacheEffects {
  import opened Prelude
  import opened NodeStatusTypes
  import opened DetailSpec
  import opened DetailRuns

  /** `b` holds nothing that `a` does not hold unchanged. */
  ghost predicate Within(a: Cache, b: Cache) {
    forall n | n in b.entries :: n in a.entries && a.entries[n] == b.entries[n]
  }

  lemma ExpireCache(m: Manager, now: Time)
    requires WellFormed(m)
    ensures Expire(m, now).cache == m.cache
  {
  }

  lemma InvalidateAllCache(m: Manager, ids: set<string>, tick: string -> Time)
    requires WellFormed(m)
    ensures Within(m.cache, InvalidateAll(m, ids, tick).cache)
  {
  }

  lemma InvalidateCache(m: Manager, id: string, now: Time)
    requires WellFormed(m) && id in m.heap
    ensures Within(m.cache, Invalidate(m, id, now).cache)
  {
  }

  lemma ForgetCache(m: Manager, node: string, tick: string -> Time)
    requires WellFormed(m)
    ensures Within(m.cache, Forget(m, node, tick).cache) && node !in Forget(m, node, tick).cache.entries
  {
  }

  lemma PreparedCache(m: Manager, node: string, force: bool, uid: string, now: Time, tick: string -> Time, seen: Time)
    requires WellFormed(m)
    ensures Within(m.cache, Prepared(m, node, force, uid, now, tick, seen).cache)
  {
  }

  lemma ExaminedCache(m: Manager, node: string, uid: string, now: Time, tick: string -> Time, seen: Time)
    requires WellFormed(m)
    ensures Within(m.cache, Examined(m, node, uid, now, tick, seen).cache)
  {
    hide Expire, InvalidateAll, InvalidateOnce;
    var c := Prepared(m, node, false, uid, now, tick, seen);
    PreparedCache(m, node, false, uid, now, tick, seen);
    if node in c.cache.entries && c.cache.entries[node].requestId in c.heap {
      InvalidateCache(c, c.cache.entries[node].requestId, seen);
    }
  }

  /** An accepted publication is cached whole under its revision, over exactly the base it named; a refused one adds nothing. */
  lemma ObservedCache(m: Manager, node: string, status: NodeStatus, revision: nat, identity: Option<Digest>, base: Option<StatusPtr>,
                      uid: Resolved, newId: string, addr: nat, now: Time, tick: string -> Time, seen: Time, last: Time)
    requires WellFormed(m) && newId !in m.heap
    ensures var (r, out) := Observed(m, node, Some(status), revision, identity, base, uid, newId, addr, now, tick, seen, last);
            && (forall n | n in r.cache.entries && (n != node || out.Err?) :: n in m.cache.entries && m.cache.entries[n] == r.cache.entries[n])
            && (out.Ok? ==>
                  && node in r.cache.entries && r.cache.entries[node].status == StatusPtr(addr, status)
                  && r.cache.entries[node].legacyRevision == revision && r.cache.entries[node].peerIdentity == identity)
            && (out.Ok? && base.Some? ==> m.cache.Live(node, last) && m.cache.entries[node].status.addr == base.value.addr)
            && (out == Err(BaseUnavailable) ==> base.Some?)
  {
    hide Expire, Forget, Examined;
    ExpireCache(m, now);
    if uid.None? || uid.value == "" {
      ForgetCache(Expire(m, now), node, tick);
    } else {
      ExaminedCache(m, node, uid.value, now, tick, seen);
    }
  }

  lemma LegacyBaseCache(m: Manager, node: string, revision: nat, uid: Resolved, seen: Time, tick: string -> Time, last: Time)
    requires WellFormed(m)
    ensures var (r, base) := LegacyBase(m, node, revision, uid, seen, tick, last);
            && Within(m.cache, r.cache)
            && (base.Some? ==>
                  && m.cache.Live(node, seen) && m.cache.entries[node].legacyRevision == revision && revision != 0 && r.cache == m.cache
                  && base.value == (m.cache.entries[node].status, m.cache.entries[node].peerIdentity))
  {
  }

  lemma AnsweredCache(c: Manager, node: string, force: bool, uid: string, newId: string, seen: Time, last: Time)
    requires WellFormed(c)
    ensures Within(c.cache, Answered(c, node, force, uid, newId, seen, last).0.cache)
  {
  }

  lemma AskCache(m: Manager, node: string, force: bool, uid: Resolved, newId: string,
                 now: Time, tick: string -> Time, seen: Time, last: Time)
    requires WellFormed(m) && newId !in m.heap
    ensures Within(m.cache, Requested(m, node, force, uid, newId, now, tick, seen, last).0.cache)
  {
    hide Expire, Prepared, Answered;
    ExpireCache(m, now);
    if uid.Some? {
      PreparedCache(m, node, force, uid.value, now, tick, seen);
      AnsweredCache(Prepared(m, node, force, uid.value, now, tick, seen), node, force, uid.value, newId, seen, last);
    }
  }

  lemma LookCache(m: Manager, node: string, id: string, uid: Resolved, now: Time, seen: Time, last: Time)
    requires WellFormed(m)
    ensures Within(m.cache, ResultFor(m, node, id, uid, now, seen, last).0.cache)
  {
  }

  lemma ReplyCache(m: Manager, node: string, id: string, status: Option<NodeStatus>, uid: Resolved, addr: nat, now: Time, last: Time, n: string)
    requires WellFormed(m) && n in Completed(m, node, id, status, uid, addr, now, last).0.cache.entries
    ensures var s := Completed(m, node, id, status, uid, addr, now, last).0.cache.entries[n];
            (n in m.cache.entries && m.cache.entries[n] == s) || (s.legacyRevision == 0 && s.peerIdentity.None? && s.status.addr == addr)
  {
    hide Expire, Invalidate;
    ExpireCache(m, now);
    if id in Expire(m, now).requests {
      InvalidateCache(Expire(m, now), id, last);
    }
  }

  lemma FailCache(m: Manager, node: string, id: string, message: string, uid: Resolved, now: Time, last: Time)
    requires WellFormed(m)
    ensures Within(m.cache, Failed(m, node, id, message, uid, now, last).0.cache)
  {
    hide Expire, Invalidate;
    ExpireCache(m, now);
    if id in Expire(m, now).requests {
      InvalidateCache(Expire(m, now), id, last);
    }
  }

  lemma PollCache(m: Manager, node: string, uid: Resolved, now: Time, last: Time)
    requires WellFormed(m)
    ensures Within(m.cache, PendingCommand(m, node, uid, now, last).0.cache)
  {
    hide Expire, Invalidate;
    ExpireCache(m, now);
    if node in Expire(m, now).active {
      InvalidateCache(Expire(m, now), Expire(m, now).active[node], last);
    }
  }

  lemma DispatchCache(m: Manager, node: string, id: string, message: string, now: Time)
    requires WellFormed(m)
    ensures PullFailed(m, node, id, message, now).cache == m.cache && Retry(m, node, now).cache == m.cache
    ensures id in m.heap ==> FinishDispatch(m, id).cache == m.cache
  {
    hide Expire;
    ExpireCache(m, now);
  }

  /** Nothing but a publication through the status cache leaves a legacy snapshot behind. */
  lemma NextCache(m: Manager, e: Event, n: string)
    requires Enabled(m, e) && !e.Publish? && n in Next(m, e).cache.entries
    ensures var s := Next(m, e).cache.entries[n];
            (n in m.cache.entries && m.cache.entries[n] == s) || (e.Reply? && s.legacyRevision == 0 && s.peerIdentity.None? && s.status.addr == e.addr)
  {
    hide Requested, ResultFor, Completed, Failed, PendingCommand, InvalidateAll, LegacyBase, Forget;
    hide PullFailed, Retry, FinishDispatch, Expire;
    match e
    case Ask(node, force, uid, newId, now, tick, seen, last) => AskCache(m, node, force, uid, newId, now, tick, seen, last);
    case Look(node, id, uid, now, seen, last) => LookCache(m, node, id, uid, now, seen, last);
    case Reply(node, id, status, uid, addr, now, last) => ReplyCache(m, node, id, status, uid, addr, now, last, n);
    case Fail(node, id, message, uid, now, last) => FailCache(m, node, id, message, uid, now, last);
    case Poll(node, uid, now, last) => PollCache(m, node, uid, now, last);
    case NodeGone(node, gone, tick) =>
      InvalidateAllCache(m, (set id | id in OfNode(m, node) && m.heap[id].uid == gone), tick);
    case ReadBase(node, revision, uid, seen, tick, last) => LegacyBaseCache(m, node, revision, uid, seen, tick, last);
    case Drop(node, tick, last) => ForgetCache(m, node, tick);
    case PullFails(id, message, now) => DispatchCache(m, m.heap[id].node, id, message, now);
    case Reconnect(node, now) => DispatchCache(m, node, "", "", now);
    case WorkerEnds(id) => DispatchCache(m, "", id, "", m.clock);
    case Wake(now) => ExpireCache(m, now);
    case CacheSweep(_) =>
    case LoseLeadership =>
    case CacheStops =>
    case Stop =>
  }
}
