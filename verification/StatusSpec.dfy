/**
  The revisioned node-status cache as values, coupled to the detail manager it is bound to.
  Go pointers are addresses drawn from a counter; an entry or status is never changed once it has an address.
  Each function is one section of the cache's lock.
*/
module StatusSpec {
  import opened Prelude
  import opened NodeStatusTypes
  import opened DetailSpec
  import opened PeerIdentity

  datatype Entry = Entry(
    addr: nat, status: StatusPtr, receivedAt: Time, source: string, revision: nat,
    overview: Option<Overview>, identity: Option<Digest>, legacy: bool)

  datatype Store = Store(
    entries: map<string, Entry>, eventSeq: nat, details: Option<Manager>, binding: nat, detailsRequired: bool, nextAddr: nat)

  /** What the detail manager reads while it handles a publication: identity, a new request ID and its clock. */
  datatype Env = Env(uid: Resolved, newId: string, now: Time, tick: string -> Time, seen: Time, last: Time)

  datatype StoreFault = NameMismatch | InvalidCounts | NotReady | Refused(why: Refusal)

  predicate BoundWell(s: Store) {
    s.details.Some? ==> WellFormed(s.details.value)
  }

  predicate Usable(s: Store, env: Env) {
    BoundWell(s) && (s.details.Some? ==> env.newId !in s.details.value.heap)
  }

  /** The overview of a full publication received at `at` over `source`. */
  function Projection(count: Counting, status: NodeStatus, at: Time, source: string): Overview {
    OverviewFromStatus(count, status, at).(statusSource := source)
  }

  /** The entry of a full status: thin with a projection once bound, the status itself otherwise. */
  function LegacyEntry(count: Counting, s: Store, status: NodeStatus, revision: nat, identity: Option<Digest>, source: string, at: Time): Entry {
    if s.details.None? then
      Entry(s.nextAddr, StatusPtr(s.nextAddr + 1, status), at, source, revision, None, identity, true)
    else
      var o := Projection(count, status, at, source);
      Entry(s.nextAddr, StatusPtr(s.nextAddr + 1, OverviewMetadata(o)), at, source, revision, Some(o), None, true)
  }

  /** Hands the publication to the detail manager and builds its entry. */
  function Admit(count: Counting, s: Store, node: string, status: NodeStatus, revision: nat, identity: Option<Digest>, source: string,
                 base: Option<StatusPtr>, at: Time, env: Env): (Store, Outcome<Entry, StoreFault>)
    requires Usable(s, env)
  {
    var t := s.(nextAddr := s.nextAddr + 3);
    if s.details.None? then
      if s.detailsRequired then (t, Err(NotReady))
      else (t, Ok(LegacyEntry(count, s, status, revision, identity, source, at)))
    else
      var (m, out) := Observed(s.details.value, node, Some(status), revision, identity, base, env.uid, env.newId, s.nextAddr + 2,
                               env.now, env.tick, env.seen, env.last);
      var t' := t.(details := Some(m));
      if out.Err? then (t', Err(Refused(out.error)))
      else (t', Ok(LegacyEntry(count, s, status, revision, identity, source, at)))
  }

  function Install(s: Store, node: string, e: Entry): Store {
    s.(entries := s.entries[node := e], eventSeq := s.eventSeq + 1)
  }

  function SourceOr(source: string): string {
    if source == "" then "push" else source
  }

  function Named(s: Store, node: string, status: NodeStatus): NodeStatus {
    if s.details.Some? && status.nodeInfo.name == "" then status.(nodeInfo := status.nodeInfo.(name := node)) else status
  }

  function NextRevision(s: Store, node: string): nat {
    if node in s.entries then s.entries[node].revision + 1 else 1
  }

  function StoreFull(count: Counting, s: Store, node: string, status: NodeStatus, source: string, at: Time, env: Env)
    : (Store, Outcome<nat, StoreFault>)
    requires Usable(s, env)
  {
    if node == "" || (status.nodeInfo.name != "" && status.nodeInfo.name != node) then (s, Err(NameMismatch))
    else
      var revision := NextRevision(s, node);
      var (t, e) := Admit(count, s, node, Named(s, node, status), revision, None, SourceOr(source), None, at, env);
      if e.Err? then (t, Err(e.error)) else (Install(t, node, e.value), Ok(revision))
  }

  predicate CountsAreValid(f: Facts) {
    && 0 <= f.healthyPeers <= f.peerCount && 0 <= f.routeCount && 0 <= f.routeMismatchCount
    && 0 <= f.unhealthyPeerLinks <= f.peerCount && (f.routeMismatchCount > 0 ==> f.routeMismatch)
  }

  function StoreOverview(s: Store, node: string, overview: Overview, source: string, at: Time): (Store, Outcome<nat, StoreFault>) {
    if node == "" || (overview.nodeInfo.name != "" && overview.nodeInfo.name != node) then (s, Err(NameMismatch))
    else if !CountsAreValid(overview.facts) then (s, Err(InvalidCounts))
    else
      var o := overview.(nodeInfo := overview.nodeInfo.(name := node), statusSource := SourceOr(source));
      var e := Entry(s.nextAddr, StatusPtr(s.nextAddr + 1, OverviewMetadata(o)), at, SourceOr(source), NextRevision(s, node), Some(o), None, false);
      (Install(s.(nextAddr := s.nextAddr + 2), node, e), Ok(e.revision))
  }

  function UpdateSourceIf(s: Store, node: string, expected: string, source: string): (Store, bool) {
    if source == "" || node !in s.entries || (expected != "" && s.entries[node].source != expected) then (s, false)
    else if s.entries[node].source == source then (s, true)
    else (Install(s.(nextAddr := s.nextAddr + 2), node, Resourced(s.entries[node], s.nextAddr, source)), true)
  }

  /** The entry at a new address under another transport; a thin one says so in its overview and status as well. */
  function Resourced(e: Entry, addr: nat, source: string): Entry {
    var e' := e.(addr := addr, source := source);
    if e.overview.None? then e'
    else
      var o := e.overview.value.(statusSource := source);
      e'.(overview := Some(o), status := StatusPtr(addr + 1, OverviewMetadata(o)))
  }

  function Delete(s: Store, node: string, tick: string -> Time): Store
    requires BoundWell(s)
  {
    s.(entries := s.entries - {node},
       details := if s.details.None? then None else Some(Forget(s.details.value, node, tick)))
  }

  /** The thin form every entry takes once details are required; `addr` is where the new entry lives. */
  function Thin(count: Counting, e: Entry, addr: nat, now: Time): Entry {
    var o := if e.overview.None? then OverviewFromStatus(count, e.status.value, now) else e.overview.value;
    e.(addr := addr, overview := Some(o), status := StatusPtr(addr + 1, OverviewMetadata(o)), identity := None)
  }

  /** Rewrites every entry; `place` gives each node a distinct unused even offset and `tick` its clock reading. */
  function RequireDetails(count: Counting, s: Store, place: string -> nat, size: nat, tick: string -> Time): Store {
    s.(detailsRequired := true, binding := s.binding + 1, nextAddr := s.nextAddr + size,
       entries := (map n | n in s.entries :: Thin(count, s.entries[n], s.nextAddr + place(n), tick(n))))
  }

  function BindDetails(count: Counting, s: Store, m: Manager, place: string -> nat, size: nat, tick: string -> Time): Store {
    RequireDetails(count, s, place, size, tick).(details := Some(m))
  }

  // ----- Deltas -----

  datatype Patch<+T> = Keep | Null | Set(value: T)

  datatype Delta = Delta(
    timestamp: Patch<Time>, nodeInfo: Patch<NodeInfo>, peers: Patch<seq<Peer>>, routingTable: Patch<seq<int>>,
    healthCheck: Patch<int>, nodeErrors: Patch<seq<string>>, fetchError: Patch<string>, lastPushTime: Patch<Time>,
    statusSource: Patch<string>, nodePodInfo: Patch<int>, bpfEntries: Patch<seq<int>>, measurements: Option<Measurements>)

  /** A field the delta sets, clears to its zero value, or leaves alone. */
  function Take<T>(f: Patch<T>, prev: T, zero: T): T {
    match f
    case Keep => prev
    case Null => zero
    case Set(v) => v
  }

  function TakeOption<T>(f: Patch<T>, prev: Option<T>): Option<T> {
    match f
    case Keep => prev
    case Null => None
    case Set(v) => Some(v)
  }

  /** Field by field; a status left without a name gets the node's. */
  function Merge(node: string, prev: NodeStatus, d: Delta): NodeStatus {
    var info := Take(d.nodeInfo, prev.nodeInfo, NodeInfo("", 0));
    NodeStatus(
      Take(d.timestamp, prev.timestamp, 0),
      if info.name == "" then info.(name := node) else info,
      TakeOption(d.peers, prev.peers),
      Take(d.routingTable, prev.routingTable, []),
      TakeOption(d.healthCheck, prev.healthCheck),
      TakeOption(d.nodeErrors, prev.nodeErrors),
      Take(d.fetchError, prev.fetchError, ""),
      TakeOption(d.lastPushTime, prev.lastPushTime),
      Take(d.statusSource, prev.statusSource, ""),
      TakeOption(d.nodePodInfo, prev.nodePodInfo),
      TakeOption(d.bpfEntries, prev.bpfEntries))
  }

  function PeersOf(s: NodeStatus): seq<Peer> {
    if s.peers.None? then [] else s.peers.value
  }

  function Measured(peers: seq<Peer>, m: Measurements): seq<Peer>
    requires ColumnsFit(peers, m)
  {
    seq(|peers|, i requires 0 <= i < |peers| => Measure(peers[i], m, i))
  }

  /** Whether a delta can be merged into a status at all. */
  ghost predicate Mergeable(hash: Hash, prev: NodeStatus, d: Delta) {
    d.measurements.Some? ==> d.peers.Keep? && Applies(hash, PeersOf(prev), d.measurements.value)
  }

  /** The merged status; the peer-identity memo plays no part in it. */
  ghost function MergeAll(hash: Hash, node: string, prev: NodeStatus, d: Delta): NodeStatus
    requires Mergeable(hash, prev, d)
  {
    if d.measurements.None? then Merge(node, prev, d)
    else Merge(node, prev.(peers := Some(Measured(PeersOf(prev), d.measurements.value))), d)
  }

  /** The memo kept with the merged status: dropped when the peers are replaced, computed when they are measured. */
  ghost function MergeMemo(hash: Hash, prev: NodeStatus, memo: Option<Digest>, d: Delta): Option<Digest>
    requires Mergeable(hash, prev, d)
  {
    if d.measurements.Some? then Some(hash(Encode(PeersOf(prev))))
    else if d.peers.Keep? then memo
    else None
  }

  /** What the first section of a delta leaves its caller: the entry and the base it read. */
  datatype Token = Token(node: string, entry: Entry, base: StatusPtr, memo: Option<Digest>)

  datatype ReadResult = Resync(revision: nat) | Base(token: Token)

  predicate RevisionFits(e: Entry, baseRevision: nat, d: Delta) {
    && !(e.overview.Some? && !e.legacy)
    && !(d.measurements.Some? && baseRevision == 0)
    && (baseRevision != 0 ==> e.revision == baseRevision)
  }

  function ReadDelta(s: Store, node: string, baseRevision: nat, d: Delta, uid: Resolved, seen: Time, tick: string -> Time, last: Time)
    : (Store, ReadResult)
    requires BoundWell(s)
  {
    if node !in s.entries then (s, Resync(0))
    else
      var e := s.entries[node];
      if (s.detailsRequired && s.details.None?) || !RevisionFits(e, baseRevision, d) then (s, Resync(e.revision))
      else if s.details.None? then (s, Base(Token(node, e, e.status, e.identity)))
      else
        var (m, base) := LegacyBase(s.details.value, node, e.revision, uid, seen, tick, last);
        var t := s.(details := Some(m));
        if base.None? then (t, Resync(e.revision)) else (t, Base(Token(node, e, base.value.0, base.value.1)))
  }

  datatype CommitResult = Committed(revision: nat) | Conflict(revision: nat) | Rejected(revision: nat)

  /** The last section: the entry must be the one read, and the detail manager must still hold the base. */
  function Commit(count: Counting, s: Store, t: Token, merged: NodeStatus, memo: Option<Digest>, source: string, at: Time, env: Env)
    : (Store, CommitResult)
    requires Usable(s, env)
  {
    if t.node !in s.entries then (s, Conflict(0))
    else if s.entries[t.node].addr != t.entry.addr then (s, Conflict(s.entries[t.node].revision))
    else
      var revision := s.entries[t.node].revision;
      var (s', e) := Admit(count, s, t.node, merged, revision + 1, memo, source, Some(t.base), at, env);
      if e.Ok? then (Install(s', t.node, e.value), Committed(revision + 1))
      else if e.error == Refused(BaseUnavailable) then (s', Conflict(revision))
      else (s', Rejected(revision))
  }
}
