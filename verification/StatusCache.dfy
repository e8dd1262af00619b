/** The status cache as an object, each method proved against its section in StatusSpec. */
module StatusCache {
  import opened Prelude
  import opened NodeStatusTypes
  import opened DetailSpec
  import opened DetailRequests
  import opened StatusSpec
  import opened PeerIdentity
  import StatusRuns

  /** Sets or clears the timestamp, node information and routes. */
  method AssignHeader(s: NodeStatus, d: Delta) returns (r: NodeStatus)
    ensures r == s.(timestamp := Take(d.timestamp, s.timestamp, 0), nodeInfo := Take(d.nodeInfo, s.nodeInfo, NodeInfo("", 0)), routingTable := Take(d.routingTable, s.routingTable, []))
  {
    r := s;
    if d.timestamp.Set? {
      r := r.(timestamp := d.timestamp.value);
    } else if d.timestamp.Null? {
      r := r.(timestamp := 0);
    }
    if d.nodeInfo.Set? {
      r := r.(nodeInfo := d.nodeInfo.value);
    } else if d.nodeInfo.Null? {
      r := r.(nodeInfo := NodeInfo("", 0));
    }
    if d.routingTable.Set? {
      r := r.(routingTable := d.routingTable.value);
    } else if d.routingTable.Null? {
      r := r.(routingTable := []);
    }
  }

  /** Sets or clears the health, errors and fetch error. */
  method AssignHealth(s: NodeStatus, d: Delta) returns (r: NodeStatus)
    ensures r == s.(healthCheck := TakeOption(d.healthCheck, s.healthCheck), nodeErrors := TakeOption(d.nodeErrors, s.nodeErrors), fetchError := Take(d.fetchError, s.fetchError, ""))
  {
    r := s;
    if d.healthCheck.Set? {
      r := r.(healthCheck := Some(d.healthCheck.value));
    } else if d.healthCheck.Null? {
      r := r.(healthCheck := None);
    }
    if d.nodeErrors.Set? {
      r := r.(nodeErrors := Some(d.nodeErrors.value));
    } else if d.nodeErrors.Null? {
      r := r.(nodeErrors := None);
    }
    if d.fetchError.Set? {
      r := r.(fetchError := d.fetchError.value);
    } else if d.fetchError.Null? {
      r := r.(fetchError := "");
    }
  }

  /** Sets or clears the push time, source, pod information and BPF entries. */
  method AssignOrigin(s: NodeStatus, d: Delta) returns (r: NodeStatus)
    ensures r == s.(lastPushTime := TakeOption(d.lastPushTime, s.lastPushTime), statusSource := Take(d.statusSource, s.statusSource, ""), nodePodInfo := TakeOption(d.nodePodInfo, s.nodePodInfo), bpfEntries := TakeOption(d.bpfEntries, s.bpfEntries))
  {
    r := s;
    if d.lastPushTime.Set? {
      r := r.(lastPushTime := Some(d.lastPushTime.value));
    } else if d.lastPushTime.Null? {
      r := r.(lastPushTime := None);
    }
    if d.statusSource.Set? {
      r := r.(statusSource := d.statusSource.value);
    } else if d.statusSource.Null? {
      r := r.(statusSource := "");
    }
    if d.nodePodInfo.Set? {
      r := r.(nodePodInfo := Some(d.nodePodInfo.value));
    } else if d.nodePodInfo.Null? {
      r := r.(nodePodInfo := None);
    }
    if d.bpfEntries.Set? {
      r := r.(bpfEntries := Some(d.bpfEntries.value));
    } else if d.bpfEntries.Null? {
      r := r.(bpfEntries := None);
    }
  }

  /** The merge outside the lock: a copy of the base, its fields assigned step by step. */
  method MergeDelta(hash: Hash, node: string, prev: NodeStatus, memo: Option<Digest>, d: Delta)
    returns (r: Outcome<(NodeStatus, Option<Digest>), Fault>)
    requires Sized(Fields(PeersOf(prev))) && StatusRuns.MemoFits(hash, prev, memo)
    ensures r.Ok? <==> Mergeable(hash, prev, d)
    ensures r.Ok? ==> r.value == (MergeAll(hash, node, prev, d), MergeMemo(hash, prev, memo, d))
  {
    var merged, identity := prev, memo;
    if d.measurements.Some? {
      if !d.peers.Keep? {
        return Err(ColumnMismatch);
      }
      var applied := ApplyPeerMeasurements(hash, PeersOf(prev), d.measurements.value, memo, PeersOf(prev));
      if applied.Err? {
        return Err(applied.error);
      }
      assert applied.value.0 == Measured(PeersOf(prev), d.measurements.value);
      FieldsDetermine(applied.value.0, PeersOf(prev));
      merged := merged.(peers := Some(applied.value.0));
      identity := Some(applied.value.1);
    }
    merged := AssignHeader(merged, d);
    if d.peers.Set? {
      merged, identity := merged.(peers := Some(d.peers.value)), None;
    } else if d.peers.Null? {
      merged, identity := merged.(peers := None), None;
    }
    merged := AssignHealth(merged, d);
    merged := AssignOrigin(merged, d);
    if merged.nodeInfo.name == "" {
      merged := merged.(nodeInfo := merged.nodeInfo.(name := node));
    }
    r := Ok((merged, identity));
  }

  class NodeStatusCache {
    const count: Counting
    var entries: map<string, Entry>
    var eventSeq: nat
    var details: NodeDetailRequests?
    var detailsRequired: bool
    var binding: nat
    var nextAddr: nat

    ghost function Frame(): set<object>
      reads this
    {
      {this} + if details == null then {} else {details, details.cache}
    }

    ghost function View(): Store
      reads Frame()
    {
      Store(entries, eventSeq, if details == null then None else Some(details.View()), binding, detailsRequired, nextAddr)
    }

    constructor (count: Counting)
      ensures View() == StatusRuns.EMPTY && this.count == count
    {
      this.count := count;
      entries, eventSeq, details, detailsRequired, binding, nextAddr := map[], 0, null, false, 0, 0;
    }

    /** Hands the publication to the bound detail manager, if any, and builds its entry. */
    method AdmitLocked(node: string, status: NodeStatus, revision: nat, identity: Option<Digest>, source: string,
                       base: Option<StatusPtr>, at: Time, env: Env) returns (r: Outcome<Entry, StoreFault>)
      requires Usable(View(), env)
      modifies Frame()
      ensures details == old(details) && (View(), r) == Admit(count, old(View()), node, status, revision, identity, source, base, at, env)
    {
      hide Observed, WellFormed;
      var addr := nextAddr;
      nextAddr := nextAddr + 3;
      if details == null {
        if detailsRequired {
          return Err(NotReady);
        }
        return Ok(Entry(addr, StatusPtr(addr + 1, status), at, source, revision, None, identity, true));
      }
      var out := details.ObserveLegacy(node, Some(status), revision, identity, base, env.uid, env.newId, addr + 2,
                                       env.now, env.tick, env.seen, env.last);
      if out.Err? {
        return Err(Refused(out.error));
      }
      var o := OverviewFromStatus(count, status, at).(statusSource := source);
      r := Ok(Entry(addr, StatusPtr(addr + 1, OverviewMetadata(o)), at, source, revision, Some(o), None, true));
    }

    method InstallLocked(node: string, e: Entry)
      modifies this`entries, this`eventSeq
      ensures View() == Install(old(View()), node, e)
    {
      entries := entries[node := e];
      eventSeq := eventSeq + 1;
    }

    method StoreFullChecked(node: string, status: NodeStatus, source: string, at: Time, env: Env) returns (r: Outcome<nat, StoreFault>)
      requires Usable(View(), env)
      modifies Frame()
      ensures (View(), r) == StoreFull(count, old(View()), node, status, source, at, env)
    {
      hide Admit, WellFormed;
      var source' := if source == "" then "push" else source;
      if node == "" || (status.nodeInfo.name != "" && status.nodeInfo.name != node) {
        return Err(NameMismatch);
      }
      var status' := status;
      if details != null && status.nodeInfo.name == "" {
        status' := status.(nodeInfo := status.nodeInfo.(name := node));
      }
      var revision := 1;
      if node in entries {
        revision := entries[node].revision + 1;
      }
      var e := AdmitLocked(node, status', revision, None, source', None, at, env);
      if e.Err? {
        return Err(e.error);
      }
      InstallLocked(node, e.value);
      r := Ok(revision);
    }

    method StoreOverviewChecked(node: string, overview: Overview, source: string, at: Time) returns (r: Outcome<nat, StoreFault>)
      modifies this`entries, this`eventSeq, this`nextAddr
      ensures (View(), r) == StoreOverview(old(View()), node, overview, source, at)
    {
      if node == "" || (overview.nodeInfo.name != "" && overview.nodeInfo.name != node) {
        return Err(NameMismatch);
      }
      if !CountsAreValid(overview.facts) {
        return Err(InvalidCounts);
      }
      var source' := if source == "" then "push" else source;
      var o := overview.(nodeInfo := overview.nodeInfo.(name := node), statusSource := source');
      var revision := if node in entries then entries[node].revision + 1 else 1;
      var e := Entry(nextAddr, StatusPtr(nextAddr + 1, OverviewMetadata(o)), at, source', revision, Some(o), None, false);
      nextAddr := nextAddr + 2;
      InstallLocked(node, e);
      r := Ok(revision);
    }

    method ChangeSourceIf(node: string, expected: string, source: string) returns (ok: bool)
      modifies this`entries, this`eventSeq, this`nextAddr
      ensures (View(), ok) == UpdateSourceIf(old(View()), node, expected, source)
    {
      if source == "" || node !in entries || (expected != "" && entries[node].source != expected) {
        return false;
      }
      if entries[node].source == source {
        return true;
      }
      var e := entries[node].(addr := nextAddr, source := source);
      if e.overview.Some? {
        var o := e.overview.value.(statusSource := source);
        e := e.(overview := Some(o), status := StatusPtr(nextAddr + 1, OverviewMetadata(o)));
      }
      nextAddr := nextAddr + 2;
      InstallLocked(node, e);
      ok := true;
    }

    method DeleteNode(node: string, tick: string -> Time)
      requires BoundWell(View())
      modifies Frame()
      ensures details == old(details) && View() == Delete(old(View()), node, tick)
    {
      hide Forget, WellFormed;
      entries := entries - {node};
      if details != null {
        details.ForgetLocked(node, tick);
      }
    }

    /** The first section of a delta. */
    method ReadForDelta(node: string, baseRevision: nat, d: Delta, uid: Resolved, seen: Time, tick: string -> Time, last: Time)
      returns (r: ReadResult)
      requires BoundWell(View())
      modifies Frame()
      ensures (View(), r) == ReadDelta(old(View()), node, baseRevision, d, uid, seen, tick, last)
    {
      hide LegacyBase, WellFormed;
      if node !in entries {
        return Resync(0);
      }
      var e := entries[node];
      if detailsRequired && details == null {
        return Resync(e.revision);
      }
      if (e.overview.Some? && !e.legacy) || (d.measurements.Some? && baseRevision == 0) || (baseRevision != 0 && e.revision != baseRevision) {
        return Resync(e.revision);
      }
      if details == null {
        return Base(Token(node, e, e.status, e.identity));
      }
      var base := details.ReadLegacyBase(node, e.revision, uid, seen, tick, last);
      if base.None? {
        return Resync(e.revision);
      }
      r := Base(Token(node, e, base.value.0, base.value.1));
    }

    /** The last section of a delta: a pointer swap guarded by the entry and the base that were read. */
    method CommitDelta(t: Token, merged: NodeStatus, memo: Option<Digest>, source: string, at: Time, env: Env) returns (r: CommitResult)
      requires Usable(View(), env)
      modifies Frame()
      ensures (View(), r) == Commit(count, old(View()), t, merged, memo, source, at, env)
    {
      hide Admit, WellFormed;
      if t.node !in entries {
        return Conflict(0);
      }
      var revision := entries[t.node].revision;
      if entries[t.node].addr != t.entry.addr {
        return Conflict(revision);
      }
      var e := AdmitLocked(t.node, merged, revision + 1, memo, source, Some(t.base), at, env);
      if e.Err? {
        if e.error == Refused(BaseUnavailable) {
          return Conflict(revision);
        }
        return Rejected(revision);
      }
      InstallLocked(t.node, e.value);
      r := Committed(revision + 1);
    }

    method ThinLocked(name: string, now: Time)
      requires name in entries
      modifies this`entries, this`nextAddr
      ensures entries == old(entries)[name := Thin(count, old(entries[name]), old(nextAddr), now)]
      ensures nextAddr == old(nextAddr) + 2
    {
      var e := entries[name];
      var o := if e.overview.None? then OverviewFromStatus(count, e.status.value, now) else e.overview.value;
      e := e.(addr := nextAddr, overview := Some(o), status := StatusPtr(nextAddr + 1, OverviewMetadata(o)), identity := None);
      entries := entries[name := e];
      nextAddr := nextAddr + 2;
    }

    /** Rewrites every entry to its thin form at a new address, in any order; `tick` gives the clock readings. */
    method RequireDetailsLocked(tick: string -> Time) returns (ghost place: map<string, nat>, ghost size: nat)
      modifies this`entries, this`detailsRequired, this`binding, this`nextAddr
      ensures StatusRuns.Placed(old(View()), PlaceOf(place), size)
      ensures View() == RequireDetails(count, old(View()), PlaceOf(place), size, tick)
    {
      hide Thin, Thinned;
      ThinnedNone(count, entries, nextAddr, tick);
      detailsRequired := true;
      binding := binding + 1;
      ghost var before, start := entries, nextAddr;
      var names := entries.Keys;
      place, size := map[], 0;
      while names != {}
        modifies this`entries, this`nextAddr
        invariant names <= before.Keys && place.Keys == before.Keys - names
        invariant nextAddr == start + size && forall n | n in place :: place[n] + 2 <= size
        invariant entries == Thinned(count, before, start, place, tick)
        decreases names
      {
        var name :| name in names;
        names := names - {name};
        ThinnedMore(count, before, start, place, tick, name, size);
        ThinLocked(name, tick(name));
        place, size := place[name := size], size + 2;
      }
      ThinnedAll(count, before, start, place, tick);
    }

    method Bind(manager: NodeDetailRequests, tick: string -> Time) returns (ghost place: map<string, nat>, ghost size: nat)
      modifies this
      ensures details == manager && StatusRuns.Placed(old(View()), PlaceOf(place), size)
      ensures View() == BindDetails(count, old(View()), manager.View(), PlaceOf(place), size, tick)
    {
      place, size := RequireDetailsLocked(tick);
      details := manager;
    }
  }

  ghost function PlaceOf(place: map<string, nat>): string -> nat {
    n => if n in place then place[n] else 0
  }

  ghost function Thinned(count: Counting, before: map<string, Entry>, start: nat, place: map<string, nat>, tick: string -> Time): map<string, Entry> {
    map n | n in before :: if n in place then Thin(count, before[n], start + place[n], tick(n)) else before[n]
  }

  lemma ThinnedMore(count: Counting, before: map<string, Entry>, start: nat, place: map<string, nat>, tick: string -> Time, name: string, at: nat)
    requires name in before && name !in place
    ensures name in Thinned(count, before, start, place, tick) && Thinned(count, before, start, place, tick)[name] == before[name]
    ensures Thinned(count, before, start, place[name := at], tick) ==
            Thinned(count, before, start, place, tick)[name := Thin(count, before[name], start + at, tick(name))]
  {
  }

  lemma ThinnedNone(count: Counting, before: map<string, Entry>, start: nat, tick: string -> Time)
    ensures Thinned(count, before, start, map[], tick) == before
  {
  }

  lemma ThinnedAll(count: Counting, before: map<string, Entry>, start: nat, place: map<string, nat>, tick: string -> Time)
    requires place.Keys == before.Keys
    ensures Thinned(count, before, start, place, tick) ==
            map n | n in before :: Thin(count, before[n], start + PlaceOf(place)(n), tick(n))
  {
  }
}
