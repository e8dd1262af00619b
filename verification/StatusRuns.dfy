/** Every run of the status cache with the detail manager it is bound to: the coupling they keep, and that no delta is lost. */
module StatusRuns {
  import opened Prelude
  import opened NodeStatusTypes
  import opened DetailSpec
  import opened StatusSpec
  import opened PeerIdentity
  import opened DetailCacheEffects
  import DetailInvariant
  import DetailRuns

  /** The counting half of the projection and the digest function, both outside this model. */
  datatype Config = Config(count: Counting, hash: Hash)

  /** One section of the status cache's lock, or one of the manager it is bound to. */
  datatype Event =
    | Full(node: string, status: NodeStatus, source: string, at: Time, env: Env)
    | Summary(node: string, overview: Overview, source: string, at: Time)
    | Transport(node: string, expected: string, source: string)
    | Remove(node: string, tick: string -> Time, last: Time)
    | Require(place: string -> nat, size: nat, tick: string -> Time)
    | Bind(manager: Manager, place: string -> nat, size: nat, tick: string -> Time)
    | Read(node: string, baseRevision: nat, delta: Delta, uid: Resolved, seen: Time, tick: string -> Time, last: Time)
    | Land(token: Token, delta: Delta, source: string, at: Time, env: Env)
    | Manage(event: DetailRuns.Event)

  ghost predicate EnvFits(s: Store, env: Env) {
    s.details.Some? ==>
      var m := s.details.value;
      env.newId !in m.heap && m.clock <= env.now && DetailRuns.Between(env.now, env.tick, env.seen) && env.seen <= env.last
  }

  /** A leadership term binds a manager of its own: no publication has reached it yet. */
  ghost predicate Bindable(s: Store, m: Manager) {
    DetailInvariant.Inv(m) && forall n | n in m.cache.entries :: 
      m.cache.entries[n].legacyRevision == 0 && m.cache.entries[n].peerIdentity.None? && m.cache.entries[n].status.addr < s.nextAddr
  }

  ghost predicate Placed(s: Store, place: string -> nat, size: nat) {
    forall n | n in s.entries :: place(n) + 2 <= size
  }

  ghost predicate Enabled(cfg: Config, s: Store, e: Event) {
    BoundWell(s) && match e
    case Full(_, _, _, _, env) => EnvFits(s, env)
    case Summary(_, _, _, _) => true
    case Transport(_, _, _) => true
    case Remove(_, tick, last) => s.details.Some? ==> DetailRuns.Between(s.details.value.clock, tick, last)
    case Require(place, size, _) => Placed(s, place, size)
    case Bind(m, place, size, _) => Bindable(s, m) && Placed(s, place, size)
    case Read(_, _, _, _, seen, tick, last) => s.details.Some? ==> s.details.value.clock <= seen && DetailRuns.Between(seen, tick, last)
    case Land(token, delta, _, _, env) =>
      EnvFits(s, env) && MemoFits(cfg.hash, token.base.value, token.memo) && Mergeable(cfg.hash, token.base.value, delta)
    case Manage(ev) => s.details.Some? && DetailRuns.Enabled(s.details.value, ev) && !ev.Publish? && (ev.Reply? ==> ev.addr == s.nextAddr)
  }

  /** A kept memo is the digest of exactly the peer list it is kept with, and that list passed the full check. */
  ghost predicate MemoFits(hash: Hash, status: NodeStatus, memo: Option<Digest>) {
    memo.Some? ==> Valid(PeersOf(status)) && memo.value == hash(Encode(PeersOf(status)))
  }

  /** The commit of what the caller merged from the base in its token. */
  ghost function Landed(cfg: Config, s: Store, t: Token, d: Delta, source: string, at: Time, env: Env): (Store, CommitResult)
    requires Usable(s, env) && Mergeable(cfg.hash, t.base.value, d)
  {
    Commit(cfg.count, s, t, MergeAll(cfg.hash, t.node, t.base.value, d), MergeMemo(cfg.hash, t.base.value, t.memo, d), source, at, env)
  }

  ghost function Next(cfg: Config, s: Store, e: Event): Store
    requires Enabled(cfg, s, e)
  {
    match e
    case Full(node, status, source, at, env) => StoreFull(cfg.count, s, node, status, source, at, env).0
    case Summary(node, overview, source, at) => StoreOverview(s, node, overview, source, at).0
    case Transport(node, expected, source) => UpdateSourceIf(s, node, expected, source).0
    case Remove(node, tick, _) => Delete(s, node, tick)
    case Require(place, size, tick) => RequireDetails(cfg.count, s, place, size, tick)
    case Bind(m, place, size, tick) => BindDetails(cfg.count, s, m, place, size, tick)
    case Read(node, baseRevision, delta, uid, seen, tick, last) => ReadDelta(s, node, baseRevision, delta, uid, seen, tick, last).0
    case Land(token, delta, source, at, env) => Landed(cfg, s, token, delta, source, at, env).0
    case Manage(ev) => s.(details := Some(DetailRuns.Next(s.details.value, ev)), nextAddr := s.nextAddr + 1)
  }

  // ----- The coupling -----

  /** Addresses in use lie below the counter, revisions start at one, and entries are thin once details are required. */
  ghost predicate EntryFits(cfg: Config, s: Store, e: Entry) {
    && e.addr < s.nextAddr && e.status.addr < s.nextAddr && e.revision >= 1
    && (s.detailsRequired ==> e.overview.Some?)
    && (e.overview.Some? ==> e.identity.None? && e.status.value == OverviewMetadata(e.overview.value))
    && (!s.detailsRequired ==> (e.overview.Some? <==> !e.legacy))
    && MemoFits(cfg.hash, e.status.value, e.identity)
  }

  /** A legacy snapshot never runs ahead of its entry, and at equal revisions the entry is its projection. */
  ghost predicate SnapshotFits(cfg: Config, s: Store, n: string, snap: Snapshot) {
    && snap.status.addr < s.nextAddr && MemoFits(cfg.hash, snap.status.value, snap.peerIdentity)
    && (snap.legacyRevision != 0 ==> n in s.entries && snap.legacyRevision <= s.entries[n].revision)
    && (snap.legacyRevision != 0 && snap.legacyRevision == s.entries[n].revision ==>
          var e := s.entries[n];
          e.legacy && e.overview == Some(Projection(cfg.count, snap.status.value, e.receivedAt, e.source)))
  }

  ghost predicate EntriesFit(cfg: Config, s: Store) {
    forall n | n in s.entries :: EntryFits(cfg, s, s.entries[n])
  }

  ghost predicate SnapshotsFit(cfg: Config, s: Store, c: Cache) {
    forall n | n in c.entries :: SnapshotFits(cfg, s, n, c.entries[n])
  }

  ghost predicate Coupled(cfg: Config, s: Store) {
    && EntriesFit(cfg, s)
    && (s.details.Some? ==>
          s.detailsRequired && DetailInvariant.Inv(s.details.value) && SnapshotsFit(cfg, s, s.details.value.cache))
  }

  /** Between two moments: an old address still means the old entry, and under one binding the old status. */
  ghost predicate Stable(a: Store, b: Store) {
    && a.nextAddr <= b.nextAddr && a.binding <= b.binding && a.eventSeq <= b.eventSeq
    && (forall n | n in b.entries :: a.nextAddr <= b.entries[n].addr || (n in a.entries && a.entries[n] == b.entries[n]))
    && (a.binding < b.binding ==> forall n | n in b.entries :: a.nextAddr <= b.entries[n].addr)
    && (a.binding == b.binding ==>
          && (a.details.Some? <==> b.details.Some?)
          && (a.details.Some? ==> forall n | n in b.details.value.cache.entries ::
                a.nextAddr <= b.details.value.cache.entries[n].status.addr
                || (n in a.details.value.cache.entries && a.details.value.cache.entries[n] == b.details.value.cache.entries[n])))
  }

  /** The valid states that `a` may turn into. */
  ghost function Futures(cfg: Config, a: Store): iset<Store> {
    iset b | Coupled(cfg, b) && Stable(a, b)
  }

  lemma Step(cfg: Config, a: Store, s: Store, r: Store)
    requires s in Futures(cfg, a) && Coupled(cfg, r) && Stable(s, r)
    ensures r in Futures(cfg, a)
  {
  }

  // ----- Publications -----

  /** What admitting a publication leaves: the manager still valid, other snapshots at most dropped, its own one stored. */
  ghost predicate Admits(cfg: Config, s: Store, node: string, status: NodeStatus, revision: nat, identity: Option<Digest>, source: string,
                         base: Option<StatusPtr>, at: Time, env: Env, t: Store, e: Outcome<Entry, StoreFault>)
  {
    && t == s.(details := t.details, nextAddr := s.nextAddr + 3)
    && (s.details.Some? <==> t.details.Some?)
    && (e.Ok? ==> e.value == LegacyEntry(cfg.count, s, status, revision, identity, source, at) && (s.details.None? ==> !s.detailsRequired))
    && (e.Err? ==> (e.error == Refused(BaseUnavailable) ==> base.Some?))
    && (s.details.Some? ==>
          var c, c' := s.details.value.cache, t.details.value.cache;
          && DetailInvariant.Inv(t.details.value)
          && (forall n | n in c'.entries && (n != node || e.Err?) :: n in c.entries && c.entries[n] == c'.entries[n])
          && (e.Ok? ==> node in c'.entries && c'.entries[node].status == StatusPtr(s.nextAddr + 2, status)
                        && c'.entries[node].legacyRevision == revision && c'.entries[node].peerIdentity == identity)
          && (e.Ok? && base.Some? ==> c.Live(node, env.last) && c.entries[node].status.addr == base.value.addr))
  }

  lemma ManagerAdmits(m: Manager, node: string, status: NodeStatus, revision: nat, identity: Option<Digest>, base: Option<StatusPtr>,
                      env: Env, addr: nat)
    requires DetailInvariant.Inv(m) && env.newId !in m.heap
    requires m.clock <= env.now && DetailRuns.Between(env.now, env.tick, env.seen) && env.seen <= env.last
    ensures var r := Observed(m, node, Some(status), revision, identity, base, env.uid, env.newId, addr, env.now, env.tick, env.seen, env.last).0;
            DetailInvariant.Inv(r)
  {
    DetailRuns.Reflexive(m);
    DetailRuns.PublishKeeps(m, m, node, Some(status), revision, identity, base, env.uid, env.newId, addr, env.now, env.tick, env.seen, env.last);
    hide Observed, DetailInvariant.PendingIsActive, DetailInvariant.CacheIsBacked, DetailInvariant.DispatchIsOwned;
  }

  lemma AdmitEffect(cfg: Config, s: Store, node: string, status: NodeStatus, revision: nat, identity: Option<Digest>, source: string,
                    base: Option<StatusPtr>, at: Time, env: Env)
    requires Coupled(cfg, s) && EnvFits(s, env) && Usable(s, env)
    ensures var (t, e) := Admit(cfg.count, s, node, status, revision, identity, source, base, at, env);
            Admits(cfg, s, node, status, revision, identity, source, base, at, env, t, e)
  {
    hide Observed, DetailInvariant.Inv, SnapshotFits;
    if s.details.Some? {
      var m := s.details.value;
      ManagerAdmits(m, node, status, revision, identity, base, env, s.nextAddr + 2);
      ObservedCache(m, node, status, revision, identity, base, env.uid, env.newId, s.nextAddr + 2, env.now, env.tick, env.seen, env.last);
    }
  }

  /** An entry that may replace the node's current one: a new address and, for a snapshot that stays, a newer revision. */
  ghost predicate Replaces(cfg: Config, s: Store, node: string, e: Entry, c: Cache, size: nat) {
    && EntryFits(cfg, s.(nextAddr := s.nextAddr + size), e) && s.nextAddr <= e.addr
    && (forall n | n in c.entries && n != node :: SnapshotFits(cfg, s, n, c.entries[n]))
    && (node in c.entries ==> SnapshotFits(cfg, s.(nextAddr := s.nextAddr + size, entries := s.entries[node := e]), node, c.entries[node]))
  }

  lemma InstallKeepsEntries(cfg: Config, s: Store, node: string, e: Entry, size: nat)
    requires EntriesFit(cfg, s) && EntryFits(cfg, s.(nextAddr := s.nextAddr + size), e)
    ensures EntriesFit(cfg, Install(s.(nextAddr := s.nextAddr + size), node, e))
  {
  }

  lemma InstallKeepsSnapshots(cfg: Config, s: Store, node: string, e: Entry, c: Cache, size: nat)
    requires Replaces(cfg, s, node, e, c, size)
    ensures SnapshotsFit(cfg, Install(s.(nextAddr := s.nextAddr + size), node, e), c)
  {
  }

  /** Installs an entry, possibly after the manager took the publication in and became `m`. */
  lemma InstallKeeps(cfg: Config, a: Store, s: Store, node: string, e: Entry, details: Option<Manager>, size: nat)
    requires s in Futures(cfg, a) && (s.details.Some? <==> details.Some?)
    requires EntryFits(cfg, s.(nextAddr := s.nextAddr + size), e) && s.nextAddr <= e.addr
    requires details.Some? ==> DetailInvariant.Inv(details.value) && Replaces(cfg, s, node, e, details.value.cache, size)
    requires details.Some? ==> forall n | n in details.value.cache.entries ::
               s.nextAddr <= details.value.cache.entries[n].status.addr
               || (n in s.details.value.cache.entries && s.details.value.cache.entries[n] == details.value.cache.entries[n])
    ensures Install(s.(nextAddr := s.nextAddr + size), node, e).(details := details) in Futures(cfg, a)
  {
    InstallKeepsEntries(cfg, s, node, e, size);
    if details.Some? {
      InstallKeepsSnapshots(cfg, s, node, e, details.value.cache, size);
    }
    hide DetailInvariant.Inv, SnapshotFits, EntryFits, Replaces;
    Step(cfg, a, s, Install(s.(nextAddr := s.nextAddr + size), node, e).(details := details));
  }

  lemma AdmissionReplaces(cfg: Config, s: Store, node: string, status: NodeStatus, revision: nat, identity: Option<Digest>, source: string,
                          base: Option<StatusPtr>, at: Time, env: Env, t: Store, e: Outcome<Entry, StoreFault>)
    requires Coupled(cfg, s) && Admits(cfg, s, node, status, revision, identity, source, base, at, env, t, e) && e.Ok?
    requires revision >= 1 && MemoFits(cfg.hash, status, identity)
    ensures EntryFits(cfg, s.(nextAddr := s.nextAddr + 3), e.value)
    ensures t.details.Some? ==> Replaces(cfg, s, node, e.value, t.details.value.cache, 3)
  {
  }

  lemma AdmissionKeeps(cfg: Config, a: Store, s: Store, node: string, status: NodeStatus, revision: nat, identity: Option<Digest>, source: string,
                       base: Option<StatusPtr>, at: Time, env: Env, t: Store, e: Outcome<Entry, StoreFault>)
    requires s in Futures(cfg, a) && Admits(cfg, s, node, status, revision, identity, source, base, at, env, t, e)
    requires revision >= 1 && MemoFits(cfg.hash, status, identity)
    ensures (if e.Ok? then Install(t, node, e.value) else t) in Futures(cfg, a)
  {
    hide DetailInvariant.Inv, MemoFits, Futures, Stable, Coupled, Replaces, EntryFits;
    FutureIsCoupled(cfg, a, s);
    if e.Ok? {
      AdmissionReplaces(cfg, s, node, status, revision, identity, source, base, at, env, t, e);
      InstallKeeps(cfg, a, s, node, e.value, t.details, 3);
      assert Install(t, node, e.value) == Install(s.(nextAddr := s.nextAddr + 3), node, e.value).(details := t.details);
    } else {
      RefusalKeeps(cfg, a, s, t);
    }
  }

  /** Dropping snapshots and advancing the address counter keeps the coupling. */
  lemma RefusalKeeps(cfg: Config, a: Store, s: Store, t: Store)
    requires s in Futures(cfg, a) && t == s.(details := t.details, nextAddr := t.nextAddr) && s.nextAddr <= t.nextAddr
    requires s.details.Some? <==> t.details.Some?
    requires t.details.Some? ==> DetailInvariant.Inv(t.details.value) && Within(s.details.value.cache, t.details.value.cache)
    ensures t in Futures(cfg, a)
  {
    hide DetailInvariant.Inv, MemoFits;
    Step(cfg, a, s, t);
  }

  lemma FullKeeps(cfg: Config, a: Store, s: Store, node: string, status: NodeStatus, source: string, at: Time, env: Env)
    requires s in Futures(cfg, a) && EnvFits(s, env) && Usable(s, env)
    ensures StoreFull(cfg.count, s, node, status, source, at, env).0 in Futures(cfg, a)
  {
    hide Admit, DetailInvariant.Inv, MemoFits, Stable;
    if node != "" && (status.nodeInfo.name == "" || status.nodeInfo.name == node) {
      var status', revision := Named(s, node, status), NextRevision(s, node);
      var (t, e) := Admit(cfg.count, s, node, status', revision, None, SourceOr(source), None, at, env);
      AdmitEffect(cfg, s, node, status', revision, None, SourceOr(source), None, at, env);
      NoMemoFits(cfg, status');
      AdmissionKeeps(cfg, a, s, node, status', revision, None, SourceOr(source), None, at, env, t, e);
    }
  }

  lemma NoMemoFits(cfg: Config, status: NodeStatus)
    ensures MemoFits(cfg.hash, status, None)
  {
  }

  /** The entry may be installed as it is, at two new addresses. */
  ghost predicate Installable(cfg: Config, s: Store, node: string, e: Entry) {
    && EntryFits(cfg, s.(nextAddr := s.nextAddr + 2), e) && s.nextAddr <= e.addr
    && (s.details.Some? ==> Replaces(cfg, s, node, e, s.details.value.cache, 2))
  }

  lemma InstallableKeeps(cfg: Config, a: Store, s: Store, node: string, e: Entry)
    requires s in Futures(cfg, a) && Installable(cfg, s, node, e)
    ensures Install(s.(nextAddr := s.nextAddr + 2), node, e) in Futures(cfg, a)
  {
    hide EntryFits, Replaces, Futures, SnapshotsFit, EntriesFit, Stable, DetailInvariant.Inv;
    FutureIsCoupled(cfg, a, s);
    InstallKeeps(cfg, a, s, node, e, s.details, 2);
    assert Install(s.(nextAddr := s.nextAddr + 2), node, e).(details := s.details) == Install(s.(nextAddr := s.nextAddr + 2), node, e);
  }

  lemma SummaryEntry(cfg: Config, s: Store, node: string, e: Entry)
    requires Coupled(cfg, s) && e.overview.Some?
    requires e == Entry(s.nextAddr, StatusPtr(s.nextAddr + 1, OverviewMetadata(e.overview.value)), e.receivedAt, e.source, NextRevision(s, node), e.overview, None, false)
    ensures Installable(cfg, s, node, e)
  {
  }

  lemma SummaryKeeps(cfg: Config, a: Store, s: Store, node: string, overview: Overview, source: string, at: Time)
    requires s in Futures(cfg, a)
    ensures StoreOverview(s, node, overview, source, at).0 in Futures(cfg, a)
  {
    hide Coupled, Stable, Installable, Futures, Install, CountsAreValid;
    FutureIsCoupled(cfg, a, s);
    var o := overview.(nodeInfo := overview.nodeInfo.(name := node), statusSource := SourceOr(source));
    var e := Entry(s.nextAddr, StatusPtr(s.nextAddr + 1, OverviewMetadata(o)), at, SourceOr(source), NextRevision(s, node), Some(o), None, false);
    SummaryEntry(cfg, s, node, e);
    InstallableKeeps(cfg, a, s, node, e);
  }

  lemma TransportEntry(cfg: Config, s: Store, node: string, source: string)
    requires Coupled(cfg, s) && node in s.entries
    ensures Installable(cfg, s, node, Resourced(s.entries[node], s.nextAddr, source))
  {
  }

  lemma TransportKeeps(cfg: Config, a: Store, s: Store, node: string, expected: string, source: string)
    requires s in Futures(cfg, a)
    ensures UpdateSourceIf(s, node, expected, source).0 in Futures(cfg, a)
  {
    hide Coupled, Stable, Installable, Futures, Resourced, Install;
    FutureIsCoupled(cfg, a, s);
    if node in s.entries {
      TransportEntry(cfg, s, node, source);
      InstallableKeeps(cfg, a, s, node, Resourced(s.entries[node], s.nextAddr, source));
    }
  }

  /** A removed node leaves no snapshot behind, so its next revision one cannot match a stale one. */
  lemma RemovalFits(cfg: Config, s: Store, node: string, c: Cache, c': Cache)
    requires SnapshotsFit(cfg, s, c) && Within(c, c') && node !in c'.entries
    ensures SnapshotsFit(cfg, s.(entries := s.entries - {node}), c')
  {
  }

  lemma RemoveKeeps(cfg: Config, a: Store, s: Store, node: string, tick: string -> Time)
    requires s in Futures(cfg, a) && BoundWell(s)
    ensures Delete(s, node, tick) in Futures(cfg, a)
  {
    hide DetailInvariant.Inv, Forget, EntryFits, SnapshotFits;
    var r := Delete(s, node, tick);
    if s.details.Some? {
      var m := s.details.value;
      ForgetIsValid(m, node, tick);
      ForgetCache(m, node, tick);
      RemovalFits(cfg, s, node, m.cache, r.details.value.cache);
      SnapshotsFitWith(cfg, s.(entries := s.entries - {node}), r.details, r.details.value.cache);
    }
    FewerEntriesFit(cfg, s, node, r.details);
    hide EntriesFit, SnapshotsFit;
    Step(cfg, a, s, r);
  }

  lemma FewerEntriesFit(cfg: Config, s: Store, node: string, details: Option<Manager>)
    requires EntriesFit(cfg, s)
    ensures EntriesFit(cfg, s.(entries := s.entries - {node}, details := details))
  {
  }

  lemma SnapshotsFitWith(cfg: Config, s: Store, details: Option<Manager>, c: Cache)
    requires SnapshotsFit(cfg, s, c)
    ensures SnapshotsFit(cfg, s.(details := details), c)
  {
  }

  lemma ForgetIsValid(m: Manager, node: string, tick: string -> Time)
    requires DetailInvariant.Inv(m)
    ensures DetailInvariant.Inv(Forget(m, node, tick))
  {
    DetailRuns.Reflexive(m);
    DetailInvariant.ForgetKeeps(m, m, node, tick, m.clock);
    assert Forget(m, node, tick).(clock := m.clock) == Forget(m, node, tick);
    hide Forget, DetailInvariant.PendingIsActive, DetailInvariant.CacheIsBacked, DetailInvariant.DispatchIsOwned;
  }

  lemma ThinEntriesFit(cfg: Config, s: Store, place: string -> nat, size: nat, tick: string -> Time)
    requires EntriesFit(cfg, s) && Placed(s, place, size)
    ensures EntriesFit(cfg, RequireDetails(cfg.count, s, place, size, tick))
  {
  }

  lemma ThinSnapshotsFit(cfg: Config, s: Store, place: string -> nat, size: nat, tick: string -> Time, c: Cache)
    requires EntriesFit(cfg, s) && s.detailsRequired && SnapshotsFit(cfg, s, c)
    ensures SnapshotsFit(cfg, RequireDetails(cfg.count, s, place, size, tick), c)
  {
    hide MemoFits;
    var r := RequireDetails(cfg.count, s, place, size, tick);
    forall n | n in c.entries ensures SnapshotFits(cfg, r, n, c.entries[n]) {
      assert SnapshotFits(cfg, s, n, c.entries[n]);
      if n in s.entries {
        assert r.entries[n] == Thin(cfg.count, s.entries[n], s.nextAddr + place(n), tick(n));
        assert EntryFits(cfg, s, s.entries[n]);
      }
    }
  }

  lemma ThinIsStable(cfg: Config, s: Store, place: string -> nat, size: nat, tick: string -> Time, details: Option<Manager>)
    ensures Stable(s, RequireDetails(cfg.count, s, place, size, tick).(details := details))
  {
    var r := RequireDetails(cfg.count, s, place, size, tick);
    forall n | n in r.entries ensures s.nextAddr <= r.entries[n].addr {
      assert r.entries[n] == Thin(cfg.count, s.entries[n], s.nextAddr + place(n), tick(n));
    }
  }

  lemma RequireKeeps(cfg: Config, a: Store, s: Store, place: string -> nat, size: nat, tick: string -> Time)
    requires s in Futures(cfg, a) && Placed(s, place, size)
    ensures RequireDetails(cfg.count, s, place, size, tick) in Futures(cfg, a)
  {
    hide DetailInvariant.Inv, EntriesFit, SnapshotsFit, Stable;
    ThinEntriesFit(cfg, s, place, size, tick);
    if s.details.Some? {
      ThinSnapshotsFit(cfg, s, place, size, tick, s.details.value.cache);
    }
    ThinIsStable(cfg, s, place, size, tick, s.details);
    Step(cfg, a, s, RequireDetails(cfg.count, s, place, size, tick));
  }

  lemma UnpublishedFits(cfg: Config, s: Store, r: Store, m: Manager)
    requires Bindable(s, m) && s.nextAddr <= r.nextAddr
    ensures SnapshotsFit(cfg, r, m.cache)
  {
  }

  lemma EntriesFitWith(cfg: Config, s: Store, details: Option<Manager>)
    requires EntriesFit(cfg, s)
    ensures EntriesFit(cfg, s.(details := details))
  {
  }

  lemma BindKeeps(cfg: Config, a: Store, s: Store, m: Manager, place: string -> nat, size: nat, tick: string -> Time)
    requires s in Futures(cfg, a) && Bindable(s, m) && Placed(s, place, size)
    ensures BindDetails(cfg.count, s, m, place, size, tick) in Futures(cfg, a)
  {
    hide DetailInvariant.Inv, EntriesFit, SnapshotsFit, Stable;
    var r := BindDetails(cfg.count, s, m, place, size, tick);
    ThinEntriesFit(cfg, s, place, size, tick);
    EntriesFitWith(cfg, RequireDetails(cfg.count, s, place, size, tick), Some(m));
    UnpublishedFits(cfg, s, r, m);
    ThinIsStable(cfg, s, place, size, tick, Some(m));
    Step(cfg, a, s, r);
  }

  lemma ReadBaseIsValid(m: Manager, node: string, revision: nat, uid: Resolved, seen: Time, tick: string -> Time, last: Time)
    requires DetailInvariant.Inv(m) && m.clock <= seen && DetailRuns.Between(seen, tick, last)
    ensures DetailInvariant.Inv(LegacyBase(m, node, revision, uid, seen, tick, last).0)
  {
    DetailRuns.Reflexive(m);
    DetailRuns.ReadBaseKeeps(m, m, node, revision, uid, seen, tick, last);
    hide LegacyBase, DetailInvariant.PendingIsActive, DetailInvariant.CacheIsBacked, DetailInvariant.DispatchIsOwned;
  }

  lemma ReadKeeps(cfg: Config, a: Store, s: Store, node: string, baseRevision: nat, d: Delta, uid: Resolved,
                  seen: Time, tick: string -> Time, last: Time)
    requires s in Futures(cfg, a) && BoundWell(s)
    requires s.details.Some? ==> s.details.value.clock <= seen && DetailRuns.Between(seen, tick, last)
    ensures ReadDelta(s, node, baseRevision, d, uid, seen, tick, last).0 in Futures(cfg, a)
  {
    var r := ReadDelta(s, node, baseRevision, d, uid, seen, tick, last).0;
    if r != s {
      var revision := s.entries[node].revision;
      ReadBaseIsValid(s.details.value, node, revision, uid, seen, tick, last);
      LegacyBaseCache(s.details.value, node, revision, uid, seen, tick, last);
      hide DetailInvariant.Inv, LegacyBase, Stable, Coupled;
      RefusalKeeps(cfg, a, s, r);
    }
  }

  /** The memo returned by a merge is the digest of the merged peers, which passed the full check. */
  lemma MergeKeepsMemo(hash: Hash, node: string, prev: NodeStatus, memo: Option<Digest>, d: Delta)
    requires Mergeable(hash, prev, d) && MemoFits(hash, prev, memo)
    ensures MemoFits(hash, MergeAll(hash, node, prev, d), MergeMemo(hash, prev, memo, d))
  {
    if d.measurements.Some? {
      var peers := PeersOf(prev);
      var after := Measured(peers, d.measurements.value);
      assert SameIdentities(after, peers);
      FieldsDetermine(after, peers);
      SameIdentitiesSameValidity(after, peers);
    }
  }

  lemma LandKeeps(cfg: Config, a: Store, s: Store, t: Token, d: Delta, source: string, at: Time, env: Env)
    requires s in Futures(cfg, a) && EnvFits(s, env) && Usable(s, env)
    requires MemoFits(cfg.hash, t.base.value, t.memo) && Mergeable(cfg.hash, t.base.value, d)
    ensures Landed(cfg, s, t, d, source, at, env).0 in Futures(cfg, a)
  {
    hide Admit, DetailInvariant.Inv, MemoFits, Stable, Mergeable, MergeAll, MergeMemo;
    if t.node in s.entries && s.entries[t.node].addr == t.entry.addr {
      var merged, memo := MergeAll(cfg.hash, t.node, t.base.value, d), MergeMemo(cfg.hash, t.base.value, t.memo, d);
      var revision := s.entries[t.node].revision + 1;
      var (s', e) := Admit(cfg.count, s, t.node, merged, revision, memo, source, Some(t.base), at, env);
      AdmitEffect(cfg, s, t.node, merged, revision, memo, source, Some(t.base), at, env);
      MergeKeepsMemo(cfg.hash, t.node, t.base.value, t.memo, d);
      AdmissionKeeps(cfg, a, s, t.node, merged, revision, memo, source, Some(t.base), at, env, s', e);
    }
  }

  lemma ManageKeeps(cfg: Config, a: Store, s: Store, ev: DetailRuns.Event)
    requires s in Futures(cfg, a) && Enabled(cfg, s, Manage(ev))
    ensures Next(cfg, s, Manage(ev)) in Futures(cfg, a)
  {
    hide DetailInvariant.Inv, DetailRuns.Next, DetailRuns.Enabled, Valid, Encode;
    NextIsValid(s.details.value, ev);
    ManagedCache(s.details.value, ev, s.nextAddr);
    Step(cfg, a, s, Next(cfg, s, Manage(ev)));
  }

  /** On its own the manager only drops snapshots or takes in on-demand replies, which are no delta bases. */
  ghost predicate NoNewBase(before: Snapshots, after: Snapshots, addr: nat) {
    forall n | n in after ::
      || (n in before && before[n] == after[n])
      || (after[n].legacyRevision == 0 && after[n].peerIdentity.None? && after[n].status.addr == addr)
  }

  type Snapshots = map<string, Snapshot>

  lemma ManagedCache(m: Manager, ev: DetailRuns.Event, addr: nat)
    requires DetailInvariant.Inv(m) && DetailRuns.Enabled(m, ev) && !ev.Publish? && (ev.Reply? ==> ev.addr == addr)
    ensures NoNewBase(m.cache.entries, DetailRuns.Next(m, ev).cache.entries, addr)
  {
    var m' := DetailRuns.Next(m, ev);
    forall n | n in m'.cache.entries
      ensures (n in m.cache.entries && m.cache.entries[n] == m'.cache.entries[n])
              || (m'.cache.entries[n].legacyRevision == 0 && m'.cache.entries[n].peerIdentity.None? && m'.cache.entries[n].status.addr == addr)
    {
      NextCache(m, ev, n);
    }
  }

  lemma NextIsValid(m: Manager, ev: DetailRuns.Event)
    requires DetailInvariant.Inv(m) && DetailRuns.Enabled(m, ev)
    ensures DetailInvariant.Inv(DetailRuns.Next(m, ev))
  {
    DetailRuns.Reflexive(m);
    DetailRuns.NextKeeps(m, m, ev);
    hide DetailRuns.Next, DetailInvariant.PendingIsActive, DetailInvariant.CacheIsBacked, DetailInvariant.DispatchIsOwned;
  }

  // ----- Whole runs -----

  lemma NextKeeps(cfg: Config, a: Store, s: Store, e: Event)
    requires Enabled(cfg, s, e) && s in Futures(cfg, a)
    ensures Next(cfg, s, e) in Futures(cfg, a)
  {
    hide Futures, StoreFull, StoreOverview, UpdateSourceIf, Delete, RequireDetails, BindDetails, ReadDelta, Landed, DetailRuns.Next;
    match e
    case Full(node, status, source, at, env) => FullKeeps(cfg, a, s, node, status, source, at, env);
    case Summary(node, overview, source, at) => SummaryKeeps(cfg, a, s, node, overview, source, at);
    case Transport(node, expected, source) => TransportKeeps(cfg, a, s, node, expected, source);
    case Remove(node, tick, _) => RemoveKeeps(cfg, a, s, node, tick);
    case Require(place, size, tick) => RequireKeeps(cfg, a, s, place, size, tick);
    case Bind(m, place, size, tick) => BindKeeps(cfg, a, s, m, place, size, tick);
    case Read(node, baseRevision, d, uid, seen, tick, last) => ReadKeeps(cfg, a, s, node, baseRevision, d, uid, seen, tick, last);
    case Land(token, d, source, at, env) => LandKeeps(cfg, a, s, token, d, source, at, env);
    case Manage(ev) => ManageKeeps(cfg, a, s, ev);
  }

  ghost predicate IsRun(cfg: Config, states: seq<Store>, events: seq<Event>) {
    && |states| == |events| + 1
    && (forall i | 0 <= i < |events| :: Enabled(cfg, states[i], events[i]) && states[i + 1] == Next(cfg, states[i], events[i]))
  }

  /** A new, unbound status cache. */
  const EMPTY := Store(map[], 0, None, 0, false, 0)

  lemma EmptyIsCoupled(cfg: Config)
    ensures Coupled(cfg, EMPTY)
  {
  }

  lemma Reflexive(cfg: Config, s: Store)
    requires Coupled(cfg, s)
    ensures s in Futures(cfg, s)
  {
  }

  lemma FutureIsCoupled(cfg: Config, a: Store, s: Store)
    requires s in Futures(cfg, a)
    ensures Coupled(cfg, s) && Stable(a, s)
  {
  }

  lemma {:induction false} RunStays(cfg: Config, states: seq<Store>, events: seq<Event>, i: nat, j: nat)
    requires IsRun(cfg, states, events) && Coupled(cfg, states[0]) && i <= j < |states|
    ensures states[j] in Futures(cfg, states[i])
    decreases j
  {
    hide Next, Enabled, Stable, Coupled;
    if i < j {
      RunStays(cfg, states, events, i, j - 1);
      NextKeeps(cfg, states[i], states[j - 1], events[j - 1]);
    } else {
      if j > 0 {
        RunStays(cfg, states, events, j - 1, j - 1);
        NextKeeps(cfg, states[j - 1], states[j - 1], events[j - 1]);
        FutureIsCoupled(cfg, states[j - 1], states[j]);
      }
      Reflexive(cfg, states[j]);
    }
  }

  /** In every reachable state the coupling holds, and old addresses keep their meaning. */
  lemma RunKeeps(cfg: Config, states: seq<Store>, events: seq<Event>, i: nat, j: nat)
    requires IsRun(cfg, states, events) && Coupled(cfg, states[0]) && i <= j < |states|
    ensures Coupled(cfg, states[j]) && Stable(states[i], states[j])
  {
    hide Next, Enabled, Stable, Coupled;
    RunStays(cfg, states, events, i, j);
    FutureIsCoupled(cfg, states[i], states[j]);
  }

  /** The full status of a node: in the detail cache once bound, in its entry otherwise. */
  ghost function FullStatus(s: Store, node: string): Option<NodeStatus> {
    if s.details.None? then if node in s.entries then Some(s.entries[node].status.value) else None
    else if node in s.details.value.cache.entries then Some(s.details.value.cache.entries[node].status.value) else None
  }

  /** A delta's base is the current wire state: never an on-demand snapshot, never older than a later overview. */
  lemma BaseIsCurrent(cfg: Config, s: Store, node: string, baseRevision: nat, d: Delta, uid: Resolved,
                      seen: Time, tick: string -> Time, last: Time)
    requires Coupled(cfg, s) && BoundWell(s) && ReadDelta(s, node, baseRevision, d, uid, seen, tick, last).1.Base?
    ensures var t := ReadDelta(s, node, baseRevision, d, uid, seen, tick, last).1.token;
            && t.node == node && node in s.entries && t.entry == s.entries[node] && t.entry.legacy
            && FullStatus(s, node) == Some(t.base.value) && t.base.addr < s.nextAddr && MemoFits(cfg.hash, t.base.value, t.memo)
            && (s.details.Some? ==>
                  && node in s.details.value.cache.entries && s.details.value.cache.entries[node].status == t.base
                  && s.details.value.cache.entries[node].legacyRevision == t.entry.revision
                  && t.entry.overview == Some(Projection(cfg.count, t.base.value, t.entry.receivedAt, t.entry.source)))
  {
  }

  /** What a commit of token `t` does at state `s`, whatever happened since the read. */
  ghost predicate LandsExactly(cfg: Config, s: Store, t: Token, d: Delta, source: string, at: Time, env: Env)
    requires Usable(s, env) && Mergeable(cfg.hash, t.base.value, d)
  {
    var (r, out) := Landed(cfg, s, t, d, source, at, env);
    if out.Committed? then
      && t.node in s.entries && s.entries[t.node] == t.entry && out.revision == t.entry.revision + 1
      && FullStatus(s, t.node) == Some(t.base.value)
      && FullStatus(r, t.node) == Some(MergeAll(cfg.hash, t.node, FullStatus(s, t.node).value, d))
      && t.node in r.entries && r.entries[t.node].revision == s.entries[t.node].revision + 1 && r.entries[t.node].legacy
      && (s.details.Some? ==> r.entries[t.node].overview == Some(Projection(cfg.count, FullStatus(r, t.node).value, at, source)))
      && r.entries == s.entries[t.node := r.entries[t.node]] && r.eventSeq == s.eventSeq + 1
    else
      r.entries == s.entries && r.eventSeq == s.eventSeq
  }

  /** If the entry's address is still the one that was read, the entry is, and so is a base of that address. */
  lemma StillBase(cfg: Config, a: Store, s: Store, t: Token)
    requires Coupled(cfg, a) && Stable(a, s) && t.node in a.entries && t.entry == a.entries[t.node] && t.base.addr < a.nextAddr
    requires a.details.Some? ==> t.node in a.details.value.cache.entries && a.details.value.cache.entries[t.node].status == t.base
    requires t.node in s.entries && s.entries[t.node].addr == t.entry.addr
    ensures s.entries[t.node] == t.entry && (a.details.Some? <==> s.details.Some?)
    ensures s.details.Some? && t.node in s.details.value.cache.entries && s.details.value.cache.entries[t.node].status.addr == t.base.addr ==>
              s.details.value.cache.entries[t.node].status == t.base
  {
  }

  lemma LandingIsExact(cfg: Config, a: Store, s: Store, t: Token, d: Delta, source: string, at: Time, env: Env)
    requires Coupled(cfg, a) && Coupled(cfg, s) && Stable(a, s) && EnvFits(s, env) && Usable(s, env)
    requires Mergeable(cfg.hash, t.base.value, d) && MemoFits(cfg.hash, t.base.value, t.memo)
    requires t.node in a.entries && t.entry == a.entries[t.node] && t.base.addr < a.nextAddr && FullStatus(a, t.node) == Some(t.base.value)
    requires if a.details.None? then t.base == t.entry.status
             else t.node in a.details.value.cache.entries && a.details.value.cache.entries[t.node].status == t.base
    ensures LandsExactly(cfg, s, t, d, source, at, env)
  {
    hide Admit, Coupled, Stable, MemoFits, Mergeable, MergeAll, MergeMemo, EnvFits, DetailInvariant.Inv;
    if t.node in s.entries && s.entries[t.node].addr == t.entry.addr {
      var merged, memo := MergeAll(cfg.hash, t.node, t.base.value, d), MergeMemo(cfg.hash, t.base.value, t.memo, d);
      StillBase(cfg, a, s, t);
      AdmitEffect(cfg, s, t.node, merged, s.entries[t.node].revision + 1, memo, source, Some(t.base), at, env);
    }
  }

  lemma ReadIsReady(cfg: Config, s: Store, e: Event)
    requires Enabled(cfg, s, e) && e.Read?
    ensures BoundWell(s)
  {
  }

  lemma LandIsReady(cfg: Config, s: Store, e: Event)
    requires Enabled(cfg, s, e) && e.Land?
    ensures EnvFits(s, e.env) && Usable(s, e.env)
    ensures MemoFits(cfg.hash, e.token.base.value, e.token.memo) && Mergeable(cfg.hash, e.token.base.value, e.delta)
  {
  }

  /** No lost update: over every interleaving, a delta that commits yields the merge of the state at its commit, one revision
      later; otherwise no entry changes and its caller is told so. */
  lemma NoLostUpdate(cfg: Config, states: seq<Store>, events: seq<Event>, i: nat, j: nat)
    requires IsRun(cfg, states, events) && Coupled(cfg, states[0]) && i < j < |events| && events[i].Read? && events[j].Land?
    requires var e := events[i];
             ReadDelta(states[i], e.node, e.baseRevision, e.delta, e.uid, e.seen, e.tick, e.last).1 == Base(events[j].token)
    ensures var e := events[j]; Usable(states[j], e.env) && LandsExactly(cfg, states[j], e.token, e.delta, e.source, e.at, e.env)
  {
    var e, l := events[i], events[j];
    hide Coupled, Stable, Mergeable, MemoFits, Landed, LandsExactly, Next, Enabled, ReadDelta, FullStatus, BoundWell, EnvFits;
    assert Enabled(cfg, states[i], e) && Enabled(cfg, states[j], l);
    ReadIsReady(cfg, states[i], e);
    LandIsReady(cfg, states[j], l);
    RunKeeps(cfg, states, events, i, i);
    RunKeeps(cfg, states, events, i, j);
    ReadToken(cfg, states[i], e.node, e.baseRevision, e.delta, e.uid, e.seen, e.tick, e.last);
    LandingIsExact(cfg, states[i], states[j], l.token, l.delta, l.source, l.at, l.env);
  }

  lemma ReadToken(cfg: Config, s: Store, node: string, baseRevision: nat, d: Delta, uid: Resolved, seen: Time, tick: string -> Time, last: Time)
    requires Coupled(cfg, s) && BoundWell(s) && ReadDelta(s, node, baseRevision, d, uid, seen, tick, last).1.Base?
    ensures var t := ReadDelta(s, node, baseRevision, d, uid, seen, tick, last).1.token;
            && t.node in s.entries && t.entry == s.entries[t.node] && t.base.addr < s.nextAddr
            && FullStatus(s, t.node) == Some(t.base.value)
            && if s.details.None? then t.base == t.entry.status
               else t.node in s.details.value.cache.entries && s.details.value.cache.entries[t.node].status == t.base
  {
  }

  /** Why the pointer and not the revision is compared: removal and re-creation reuse revision one for other contents. */
  lemma RevisionIsReused(cfg: Config, s: Store, node: string, first: NodeStatus, second: NodeStatus, source: string, at: Time, env: Env, tick: string -> Time)
    requires s.details.None? && !s.detailsRequired && node != "" && node !in s.entries
    requires first.nodeInfo.name == node && second.nodeInfo.name == node && first != second
    ensures var a := StoreFull(cfg.count, s, node, first, source, at, env).0;
            var b := StoreFull(cfg.count, Delete(a, node, tick), node, second, source, at, env).0;
            && a.entries[node].revision == b.entries[node].revision == 1
            && a.entries[node].status.value != b.entries[node].status.value && a.entries[node].addr != b.entries[node].addr
  {
  }
}
