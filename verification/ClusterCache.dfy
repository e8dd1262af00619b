/**
 * The controller's pre-built cluster status: node notifications, numbered in the order of the mutations behind them but
 * delivered in any order, patch it in place, while readers hold snapshots of it.
 */
module ClusterCache {
  import opened Prelude

  datatype Info = Info(
    name: string, k8sReady: string, isGateway: bool, providerId: string, osImage: string, kernel: string, kubelet: string,
    arch: string, nodeOs: string, labels: map<string, string>, k8sUpdatedAt: Option<Time>, externalIPs: seq<string>)

  /** A node's light status; `body` stands for the fields a patch simply replaces. */
  datatype Row = Row(info: Info, source: string, podInfo: Option<int>, body: int)

  datatype Overview = Overview(info: Info, source: string, podInfo: Option<int>, body: int, facts: int)

  function Metadata(o: Overview, externalIPs: seq<string>): Row {
    Row(o.info.(externalIPs := externalIPs), o.source, o.podInfo, o.body)
  }

  function OrElse(a: string, b: string): string {
    if a == "" then b else a
  }

  /** What the controller knows about a node and the node itself left out survives a patch. */
  function Preserve(row: Row, existing: Row): Row {
    var n, e := row.info, existing.info;
    Row(n.(k8sReady := OrElse(n.k8sReady, e.k8sReady), isGateway := n.isGateway || e.isGateway, providerId := OrElse(n.providerId, e.providerId),
           osImage := OrElse(n.osImage, e.osImage), kernel := OrElse(n.kernel, e.kernel), kubelet := OrElse(n.kubelet, e.kubelet),
           arch := OrElse(n.arch, e.arch), nodeOs := OrElse(n.nodeOs, e.nodeOs), labels := if n.labels == map[] then e.labels else n.labels,
           k8sUpdatedAt := if n.k8sUpdatedAt.None? then e.k8sUpdatedAt else n.k8sUpdatedAt),
        OrElse(row.source, existing.source), if row.podInfo.None? then existing.podInfo else row.podInfo, row.body)
  }

  /** The cached status (`None` until first built) with the lookup tables beside it. */
  datatype Status = Status(nodes: seq<Row>, overviews: map<string, Overview>, nodeCount: int, seqNo: nat, timestamp: Time)

  datatype Cache = Cache(status: Option<Status>, seqNo: nat, nodeIndex: map<string, nat>, nodeEventSeq: map<string, nat>)

  /** A notification; an event number of zero means it is not ordered against others. */
  datatype Event = Event(node: string, overview: Overview, externalIPs: seq<string>, eventSeq: nat, now: Time)

  function LastSeq(c: Cache, node: string): nat {
    if node in c.nodeEventSeq then c.nodeEventSeq[node] else 0
  }

  predicate Ignored(c: Cache, e: Event) {
    c.status.None? || (e.eventSeq != 0 && e.eventSeq <= LastSeq(c, e.node))
  }

  predicate Indexed(c: Cache, node: string)
    requires c.status.Some?
  {
    node in c.nodeIndex && c.nodeIndex[node] < |c.status.value.nodes|
  }

  function Patch(c: Cache, e: Event): Cache {
    if Ignored(c, e) then c
    else
      var st, row := c.status.value, Metadata(e.overview, e.externalIPs);
      var hit := Indexed(c, e.node);
      var nodes := if hit then st.nodes[c.nodeIndex[e.node] := Preserve(row, st.nodes[c.nodeIndex[e.node]])] else st.nodes + [row];
      Cache(Some(Status(nodes, st.overviews[e.node := e.overview], if hit then st.nodeCount else |nodes|, c.seqNo + 1, e.now)),
            c.seqNo + 1,
            if hit then c.nodeIndex else c.nodeIndex[e.node := |st.nodes|],
            if e.eventSeq == 0 then c.nodeEventSeq else c.nodeEventSeq[e.node := e.eventSeq])
  }

  // ----- The node index -----

  /** Every indexed name points at a row within range that bears it, so no two names share a row. */
  ghost predicate IndexIsTrue(c: Cache) {
    c.status.Some? ==> forall n | n in c.nodeIndex :: c.nodeIndex[n] < |c.status.value.nodes| && c.status.value.nodes[c.nodeIndex[n]].info.name == n
  }

  /** The notification carries the name of the node it is about. */
  ghost predicate Named(e: Event) {
    e.overview.info.name == e.node
  }

  lemma PatchKeepsIndex(c: Cache, e: Event)
    requires IndexIsTrue(c)
    ensures Ignored(c, e) || (IndexIsTrue(Patch(c, e)) <==> Named(e))
    ensures Named(e) ==> IndexIsTrue(Patch(c, e))
  {
    if !Ignored(c, e) {
      var d := Patch(c, e);
      assert d.status.value.nodes[d.nodeIndex[e.node]].info.name == e.overview.info.name;
    }
  }

  lemma IndexIsInjective(c: Cache, m: string, n: string)
    requires IndexIsTrue(c) && c.status.Some? && m in c.nodeIndex && n in c.nodeIndex && c.nodeIndex[m] == c.nodeIndex[n]
    ensures m == n
  {
  }

  // ----- Any order of delivery -----

  /** The notifications applied one after the other, whether or not they carry names. */
  function Deliver(c: Cache, events: seq<Event>): Cache {
    if events == [] then c else Patch(Deliver(c, events[..|events| - 1]), events[|events| - 1])
  }

  /** Delivering keeps the index true as long as every notification carries its node's name. */
  lemma {:induction false} DeliverKeepsIndex(c: Cache, events: seq<Event>)
    requires IndexIsTrue(c) && forall e | e in events :: Named(e)
    ensures IndexIsTrue(Deliver(c, events))
    decreases |events|
  {
    hide Patch;
    if events != [] {
      var init, last := events[..|events| - 1], events[|events| - 1];
      assert events == init + [last];
      DeliverKeepsIndex(c, init);
      PatchKeepsIndex(Deliver(c, init), last);
    }
  }

  /** `e` is the highest-numbered of the events about its node, and newer than anything delivered before. */
  ghost predicate Wins(c: Cache, events: seq<Event>, e: Event) {
    e in events && e.eventSeq > LastSeq(c, e.node) && forall f | f in events && f.node == e.node :: f.eventSeq <= e.eventSeq
  }

  ghost predicate Stale(c: Cache, events: seq<Event>, node: string) {
    forall f | f in events && f.node == node :: f.eventSeq <= LastSeq(c, node)
  }

  ghost predicate Numbered(events: seq<Event>) {
    && (forall e | e in events :: e.eventSeq > 0)
    && (forall e, f | e in events && f in events && e.node == f.node && e.eventSeq == f.eventSeq :: e == f)
  }

  ghost predicate Holds(c: Cache, node: string, overview: Overview, eventSeq: nat) {
    c.status.Some? && node in c.status.value.overviews && c.status.value.overviews[node] == overview && LastSeq(c, node) == eventSeq
  }

  ghost predicate Untouched(c: Cache, d: Cache, node: string) {
    && c.status.Some? && d.status.Some? && LastSeq(d, node) == LastSeq(c, node)
    && (node in d.status.value.overviews <==> node in c.status.value.overviews)
    && (node in c.status.value.overviews ==> d.status.value.overviews[node] == c.status.value.overviews[node])
  }

  lemma PatchEffect(c: Cache, e: Event, node: string)
    requires c.status.Some? && e.eventSeq > 0
    ensures Patch(c, e).status.Some?
    ensures e.node == node && e.eventSeq > LastSeq(c, node) ==> Holds(Patch(c, e), node, e.overview, e.eventSeq)
    ensures e.node != node || e.eventSeq <= LastSeq(c, node) ==> Untouched(c, Patch(c, e), node)
  {
  }

  /** Whatever the order, a node ends up with its highest-numbered overview, or is as before if none is new. */
  lemma {:induction false} HighestWins(c: Cache, events: seq<Event>, node: string)
    requires c.status.Some? && Numbered(events)
    ensures Deliver(c, events).status.Some?
    ensures Stale(c, events, node) ==> Untouched(c, Deliver(c, events), node)
    ensures forall e: Event | e.node == node && Wins(c, events, e) :: Holds(Deliver(c, events), node, e.overview, e.eventSeq)
    ensures Stale(c, events, node) || exists e: Event :: e.node == node && Wins(c, events, e)
    decreases |events|
  {
    hide Patch;
    if events != [] {
      var init, last := events[..|events| - 1], events[|events| - 1];
      assert events == init + [last] && last in events;
      HighestWins(c, init, node);
      var d := Deliver(c, init);
      PatchEffect(d, last, node);
      if Stale(c, init, node) {
        if last.node == node && last.eventSeq > LastSeq(c, node) {
          assert Wins(c, events, last);
        }
      } else {
        var best: Event :| best.node == node && Wins(c, init, best);
        if last.node == node && last.eventSeq > best.eventSeq {
          assert Wins(c, events, last);
        } else {
          assert Wins(c, events, best);
        }
      }
    }
  }

  /** Two orders of the same notifications leave the same overview and the same number for every node. */
  lemma OrderDoesNotMatter(c: Cache, events: seq<Event>, other: seq<Event>, node: string)
    requires c.status.Some? && Numbered(events) && multiset(events) == multiset(other)
    ensures Numbered(other)
    ensures Untouched(Deliver(c, events), Deliver(c, other), node)
  {
    hide Deliver;
    forall e ensures e in events <==> e in other {
      assert e in events <==> e in multiset(events);
      assert e in other <==> e in multiset(other);
    }
    HighestWins(c, events, node);
    HighestWins(c, other, node);
    if !Stale(c, events, node) {
      var e: Event :| e.node == node && Wins(c, events, e);
      assert Wins(c, other, e);
    }
  }

  // ----- In place -----

  /** A map that is updated in place, so that two holders of it see each other's changes. */
  class OverviewMap {
    var m: map<string, Overview>

    constructor (m: map<string, Overview>)
      ensures this.m == m
    {
      this.m := m;
    }
  }

  /** The cached response, or a reader's snapshot of it. */
  datatype Response = Response(nodes: array<Row>, overviews: OverviewMap, nodeCount: int, seqNo: nat, timestamp: Time)

  ghost function ValueOf(r: Response): Status
    reads r.nodes, r.overviews
  {
    Status(r.nodes[..], r.overviews.m, r.nodeCount, r.seqNo, r.timestamp)
  }

  class ClusterStatusCache {
    var status: Option<Response>
    var seqNo: nat
    var nodeIndex: map<string, nat>
    var nodeEventSeq: map<string, nat>

    ghost function Repr(): set<object>
      reads this
    {
      {this} + if status.Some? then {status.value.nodes, status.value.overviews} else {}
    }

    ghost function View(): Cache
      reads Repr()
    {
      Cache(if status.Some? then Some(ValueOf(status.value)) else None, seqNo, nodeIndex, nodeEventSeq)
    }

    constructor ()
      ensures View() == Cache(None, 0, map[], map[]) && fresh(Repr())
    {
      status, seqNo, nodeIndex, nodeEventSeq := None, 0, map[], map[];
    }

    /** Installs a freshly collected list of rows and indexes it; of rows with one name the last is indexed. */
    method Rebuild(rows: seq<Row>, overviews: map<string, Overview>, nodeCount: int, now: Time)
      modifies this
      ensures IndexIsTrue(View()) && fresh(Repr() - {this})
      ensures nodeIndex.Keys == set k | 0 <= k < |rows| :: rows[k].info.name
      ensures status.Some? && ValueOf(status.value) == Status(rows, overviews, nodeCount, old(seqNo) + 1, now)
      ensures seqNo == old(seqNo) + 1 && nodeEventSeq == old(nodeEventSeq)
    {
      var index: map<string, nat>, i := map[], 0;
      while i < |rows|
        invariant i <= |rows| && index.Keys == set k | 0 <= k < i :: rows[k].info.name
        invariant forall n | n in index :: 0 <= index[n] < i && rows[index[n]].info.name == n
      {
        index := index[rows[i].info.name := i];
        i := i + 1;
      }
      var nodes := new Row[|rows|](k requires 0 <= k < |rows| => rows[k]);
      var own := new OverviewMap(overviews);
      seqNo := seqNo + 1;
      status := Some(Response(nodes, own, nodeCount, seqNo, now));
      nodeIndex := index;
      assert nodes[..] == rows;
    }

    method Append(row: Row) returns (nodes: array<Row>)
      requires status.Some?
      ensures fresh(nodes) && nodes[..] == status.value.nodes[..] + [row]
    {
      var before := status.value.nodes;
      nodes := new Row[before.Length + 1](k reads before requires 0 <= k <= before.Length => if k < before.Length then before[k] else row);
      assert nodes[..] == before[..] + [row];
    }

    /** Applies one notification in place; containers are the old ones or new ones, never a reader's. */
    method PatchNode(e: Event)
      modifies Repr()
      ensures View() == Patch(old(View()), e) && fresh(Repr() - old(Repr()))
    {
      hide Preserve, Metadata;
      if status.None? {
        return;
      }
      if e.eventSeq != 0 {
        if e.node in nodeEventSeq && e.eventSeq <= nodeEventSeq[e.node] {
          return;
        }
        nodeEventSeq := nodeEventSeq[e.node := e.eventSeq];
      }
      var r, row := status.value, Metadata(e.overview, e.externalIPs);
      r.overviews.m := r.overviews.m[e.node := e.overview];
      if e.node in nodeIndex && nodeIndex[e.node] < r.nodes.Length {
        var i := nodeIndex[e.node];
        r.nodes[i] := Preserve(row, r.nodes[i]);
      } else {
        nodeIndex := nodeIndex[e.node := r.nodes.Length];
        var nodes := Append(row);
        r := r.(nodes := nodes, nodeCount := nodes.Length);
      }
      seqNo := seqNo + 1;
      status := Some(r.(seqNo := seqNo, timestamp := e.now));
    }

    /** A copy of the containers: equal now, and sharing nothing that a patch could change. */
    method Get() returns (snapshot: Option<Response>)
      ensures snapshot.Some? <==> status.Some?
      ensures snapshot.Some? ==>
                && fresh(snapshot.value.nodes) && fresh(snapshot.value.overviews)
                && ValueOf(snapshot.value) == ValueOf(status.value)
    {
      if status.None? {
        return None;
      }
      var r := status.value;
      var nodes := new Row[r.nodes.Length](k reads r.nodes requires 0 <= k < r.nodes.Length => r.nodes[k]);
      var overviews := new OverviewMap(r.overviews.m);
      assert nodes[..] == r.nodes[..];
      return Some(r.(nodes := nodes, overviews := overviews));
    }

    /** A snapshot stays as it was taken through any number of later patches. */
    method GetThenPatch(events: seq<Event>) returns (snapshot: Option<Response>)
      modifies Repr()
      ensures snapshot.Some? <==> old(status).Some?
      ensures snapshot.Some? ==> Some(ValueOf(snapshot.value)) == old(View()).status
      ensures View() == Deliver(old(View()), events)
    {
      hide Patch;
      snapshot := Get();
      ghost var kept: set<object> := if snapshot.Some? then {snapshot.value.nodes, snapshot.value.overviews} else {};
      var i := 0;
      while i < |events|
        invariant i <= |events| && fresh(Repr() - old(Repr())) && Repr() !! kept
        invariant View() == Deliver(old(View()), events[..i])
        invariant snapshot.Some? ==> Some(ValueOf(snapshot.value)) == old(View()).status
      {
        assert events[..i + 1][..i] == events[..i];
        PatchNode(events[i]);
        i := i + 1;
      }
      assert events[..|events|] == events;
    }
  }
}
