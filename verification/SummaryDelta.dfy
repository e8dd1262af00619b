/**
 * Cluster summaries sent to watching clients: a full summary once, then only what changed. A client that folds the whole
 * message sequence must always hold the latest summary, up to its number and timestamp. Values are compared as their
 * JSON documents; a nil list and an empty one differ to the sender and are the same to a client.
 */
module SummaryDelta {
  import opened Prelude

  /** One node's row; `body` stands for every column but the name. */
  datatype Row = Row(name: string, body: int)

  datatype Scalars = Scalars(nodeCount: int, siteCount: int, tenant: string, pullEnabled: bool, leader: Option<int>, build: Option<int>)

  /** `None` is a nil list. */
  type List = Option<seq<int>>

  datatype Lists = Lists(sites: List, gatewayPools: List, peerings: List, errors: List, warnings: List, problems: List)

  datatype Summary = Summary(seqNo: nat, timestamp: Time, scalars: Scalars, lists: Lists, rows: seq<Row>)

  datatype ScalarChanges = ScalarChanges(
    nodeCount: Option<int>, siteCount: Option<int>, tenant: Option<string>, pullEnabled: Option<bool>,
    leader: Option<Option<int>>, build: Option<Option<int>>)

  datatype ListChanges = ListChanges(
    sites: Option<seq<int>>, gatewayPools: Option<seq<int>>, peerings: Option<seq<int>>,
    errors: Option<seq<int>>, warnings: Option<seq<int>>, problems: Option<seq<int>>)

  /** The names in `removed` go out sorted; their order means nothing to a client. */
  datatype Delta = Delta(seqNo: nat, timestamp: Time, scalars: ScalarChanges, lists: ListChanges, updated: seq<Row>, removed: set<string>)

  // ----- What changed -----

  function Changed<T(==)>(prev: T, curr: T): Option<T> {
    if prev == curr then None else Some(curr)
  }

  /** A changed list is always sent as a list, so clearing one differs from leaving it alone. */
  function ChangedList(prev: List, curr: List): Option<seq<int>> {
    if prev == curr then None else Some(Plain(curr))
  }

  function Plain(l: List): seq<int> {
    if l.None? then [] else l.value
  }

  function DiffScalars(p: Scalars, c: Scalars): ScalarChanges {
    ScalarChanges(Changed(p.nodeCount, c.nodeCount), Changed(p.siteCount, c.siteCount), Changed(p.tenant, c.tenant),
                  Changed(p.pullEnabled, c.pullEnabled), Changed(p.leader, c.leader), Changed(p.build, c.build))
  }

  function DiffLists(p: Lists, c: Lists): ListChanges {
    ListChanges(ChangedList(p.sites, c.sites), ChangedList(p.gatewayPools, c.gatewayPools), ChangedList(p.peerings, c.peerings),
                ChangedList(p.errors, c.errors), ChangedList(p.warnings, c.warnings), ChangedList(p.problems, c.problems))
  }

  /** The rows by name; of rows with one name the last counts. */
  function ByName(rows: seq<Row>): (m: map<string, Row>)
    ensures forall n | n in m :: m[n] in rows && m[n].name == n
    ensures forall r | r in rows :: r.name in m
  {
    if rows == [] then map[] else ByName(rows[..|rows| - 1])[rows[|rows| - 1].name := rows[|rows| - 1]]
  }

  /** The rows of `rows` that are missing from `prev` or differ there, in order. */
  function Updated(prev: map<string, Row>, rows: seq<Row>): (u: seq<Row>)
    ensures forall r :: r in u <==> r in rows && (r.name !in prev || prev[r.name] != r)
  {
    if rows == [] then []
    else
      var last := rows[|rows| - 1];
      Updated(prev, rows[..|rows| - 1]) + if last.name !in prev || prev[last.name] != last then [last] else []
  }

  function Difference(prev: Summary, curr: Summary): Delta {
    Delta(curr.seqNo, curr.timestamp, DiffScalars(prev.scalars, curr.scalars), DiffLists(prev.lists, curr.lists),
          Updated(ByName(prev.rows), curr.rows), ByName(prev.rows).Keys - ByName(curr.rows).Keys)
  }

  const NO_SCALARS := ScalarChanges(None, None, None, None, None, None)
  const NO_LISTS := ListChanges(None, None, None, None, None, None)

  predicate IsEmpty(d: Delta) {
    d.scalars == NO_SCALARS && d.lists == NO_LISTS && d.updated == [] && d.removed == {}
  }

  function Compute(prev: Summary, curr: Summary): Option<Delta> {
    var d := Difference(prev, curr);
    if IsEmpty(d) then None else Some(d)
  }

  // ----- What a client makes of it -----

  /** What a client holds: its lists are never nil and its rows are kept by name. */
  datatype Client = Client(seqNo: nat, timestamp: Time, scalars: Scalars, lists: ListValues, rows: map<string, Row>)

  datatype ListValues = ListValues(sites: seq<int>, gatewayPools: seq<int>, peerings: seq<int>, errors: seq<int>, warnings: seq<int>, problems: seq<int>)

  function PlainLists(l: Lists): ListValues {
    ListValues(Plain(l.sites), Plain(l.gatewayPools), Plain(l.peerings), Plain(l.errors), Plain(l.warnings), Plain(l.problems))
  }

  /** What a full summary is to a client. */
  function Load(s: Summary): Client {
    Client(s.seqNo, s.timestamp, s.scalars, PlainLists(s.lists), ByName(s.rows))
  }

  function Or<T>(change: Option<T>, current: T): T {
    if change.Some? then change.value else current
  }

  function MergeScalars(s: Scalars, d: ScalarChanges): Scalars {
    Scalars(Or(d.nodeCount, s.nodeCount), Or(d.siteCount, s.siteCount), Or(d.tenant, s.tenant),
            Or(d.pullEnabled, s.pullEnabled), Or(d.leader, s.leader), Or(d.build, s.build))
  }

  function MergeLists(l: ListValues, d: ListChanges): ListValues {
    ListValues(Or(d.sites, l.sites), Or(d.gatewayPools, l.gatewayPools), Or(d.peerings, l.peerings),
               Or(d.errors, l.errors), Or(d.warnings, l.warnings), Or(d.problems, l.problems))
  }

  /** Rows removed, then rows set, in the order sent. */
  function SetRows(rows: map<string, Row>, updated: seq<Row>): map<string, Row> {
    if updated == [] then rows else SetRows(rows, updated[..|updated| - 1])[updated[|updated| - 1].name := updated[|updated| - 1]]
  }

  function Merge(c: Client, d: Delta): Client {
    Client(d.seqNo, d.timestamp, MergeScalars(c.scalars, d.scalars), MergeLists(c.lists, d.lists), SetRows(c.rows - d.removed, d.updated))
  }

  /** The dashboard drops a delta that is not newer than what it holds; the command-line client merges every one. */
  function Receive(c: Client, d: Delta, checks: bool): Client {
    if checks && d.seqNo <= c.seqNo then c else Merge(c, d)
  }

  // ----- A delta replays -----

  /** Equal to a client, up to number and timestamp. */
  predicate Agree(a: Client, b: Client) {
    a.scalars == b.scalars && a.lists == b.lists && a.rows == b.rows
  }

  ghost predicate Unique(rows: seq<Row>) {
    forall i, j | 0 <= i < j < |rows| :: rows[i].name != rows[j].name
  }

  lemma {:induction false} ByNameFinds(rows: seq<Row>, r: Row)
    requires Unique(rows) && r in rows
    ensures r.name in ByName(rows) && ByName(rows)[r.name] == r
  {
    var init, last := rows[..|rows| - 1], rows[|rows| - 1];
    if r != last {
      assert r in init;
      ByNameFinds(init, r);
      var i :| 0 <= i < |init| && init[i] == r;
      assert rows[i].name != last.name;
    }
  }

  lemma {:induction false} SetRowsFinds(rows: map<string, Row>, updated: seq<Row>, n: string)
    ensures n in SetRows(rows, updated) <==> n in rows || n in ByName(updated)
    ensures n in SetRows(rows, updated) ==> SetRows(rows, updated)[n] == if n in ByName(updated) then ByName(updated)[n] else rows[n]
  {
    if updated != [] {
      SetRowsFinds(rows, updated[..|updated| - 1], n);
    }
  }

  lemma {:induction false} UpdatedIsUnique(prev: map<string, Row>, rows: seq<Row>)
    requires Unique(rows)
    ensures Unique(Updated(prev, rows))
  {
    if rows != [] {
      var init, last := rows[..|rows| - 1], rows[|rows| - 1];
      UpdatedIsUnique(prev, init);
      forall r | r in Updated(prev, init) ensures r.name != last.name {
        var i :| 0 <= i < |init| && init[i] == r;
        assert rows[i].name != last.name;
      }
    }
  }

  lemma RowsReplay(prev: seq<Row>, curr: seq<Row>)
    requires Unique(curr)
    ensures SetRows(ByName(prev) - (ByName(prev).Keys - ByName(curr).Keys), Updated(ByName(prev), curr)) == ByName(curr)
  {
    hide SetRows, Updated;
    var p, c, u := ByName(prev), ByName(curr), Updated(ByName(prev), curr);
    var base := p - (p.Keys - c.Keys);
    var merged := SetRows(base, u);
    forall n ensures n in merged <==> n in c
      ensures n in c ==> n in merged && merged[n] == c[n]
    {
      RowReplays(prev, curr, n);
    }
  }

  lemma RowReplays(prev: seq<Row>, curr: seq<Row>, n: string)
    requires Unique(curr)
    ensures var p, c, u := ByName(prev), ByName(curr), Updated(ByName(prev), curr);
            var merged := SetRows(p - (p.Keys - c.Keys), u);
            (n in merged <==> n in c) && (n in c ==> merged[n] == c[n])
  {
    var p, c, u := ByName(prev), ByName(curr), Updated(ByName(prev), curr);
    SetRowsFinds(p - (p.Keys - c.Keys), u, n);
    UpdatedIsUnique(p, curr);
    if n in ByName(u) {
      var r := ByName(u)[n];
      ByNameFinds(curr, r);
    } else if n in c {
      assert c[n] !in u;
    }
  }

  /** Applying the computed difference to the previous summary gives the current one. */
  lemma DeltaReplays(prev: Summary, curr: Summary, c: Client)
    requires Unique(curr.rows) && Agree(c, Load(prev))
    ensures Agree(Merge(c, Difference(prev, curr)), Load(curr))
  {
    hide SetRows, Updated, ByName;
    RowsReplay(prev.rows, curr.rows);
  }

  // ----- No change, no message -----

  /** Equal to the sender in everything but number and timestamp. */
  predicate Same(a: Summary, b: Summary) {
    a.scalars == b.scalars && a.lists == b.lists && a.rows == b.rows
  }

  function Before(a: string, b: string): bool {
    if b == "" then false
    else if a == "" then true
    else if a[0] != b[0] then a[0] < b[0]
    else Before(a[1..], b[1..])
  }

  ghost predicate Sorted(rows: seq<Row>) {
    forall i, j | 0 <= i < j < |rows| :: Before(rows[i].name, rows[j].name)
  }

  lemma {:induction false} BeforeIsOrder(a: string, b: string)
    ensures !(Before(a, b) && Before(b, a)) && !Before(a, a)
  {
    if a != "" {
      BeforeIsOrder(a[1..], if b == "" then b else b[1..]);
    }
  }

  lemma SortedIsUnique(rows: seq<Row>)
    requires Sorted(rows)
    ensures Unique(rows)
  {
    forall i, j | 0 <= i < j < |rows| ensures rows[i].name != rows[j].name {
      BeforeIsOrder(rows[i].name, rows[i].name);
    }
  }

  /** Sorted lists with the same rows by name are the same list. */
  lemma {:induction false} SortedIsDetermined(a: seq<Row>, b: seq<Row>)
    requires Sorted(a) && Sorted(b) && forall r :: r in a <==> r in b
    ensures a == b
    decreases |a|
  {
    if a == [] {
      HeadIsIn(b);
    } else {
      HeadIsIn(a);
      HeadIsIn(b);
      HeadsAgree(a, b);
      TailsAgree(a, b);
      SortedIsDetermined(a[1..], b[1..]);
      assert a == [a[0]] + a[1..] && b == [b[0]] + b[1..];
    }
  }

  lemma HeadIsIn(a: seq<Row>)
    ensures a == [] || a[0] in a
  {
  }

  lemma HeadsAgree(a: seq<Row>, b: seq<Row>)
    requires Sorted(a) && Sorted(b) && a != [] && b != [] && a[0] in b && b[0] in a
    ensures a[0] == b[0]
  {
    var i :| 0 <= i < |b| && b[i] == a[0];
    var j :| 0 <= j < |a| && a[j] == b[0];
    if i > 0 && j > 0 {
      BeforeIsOrder(a[0].name, b[0].name);
    }
  }

  lemma TailsAgree(a: seq<Row>, b: seq<Row>)
    requires Sorted(a) && Sorted(b) && a != [] && b != [] && a[0] == b[0] && forall r :: r in a <==> r in b
    ensures forall r :: r in a[1..] <==> r in b[1..]
  {
    TailHas(a);
    TailHas(b);
  }

  lemma TailHas(a: seq<Row>)
    requires Sorted(a) && a != []
    ensures forall r :: r in a[1..] <==> r in a && r != a[0]
  {
    forall r ensures r in a[1..] <==> r in a && r != a[0] {
      if r in a[1..] {
        var i :| 0 <= i < |a| - 1 && a[1..][i] == r;
        assert Before(a[0].name, a[i + 1].name);
        BeforeIsOrder(r.name, r.name);
      }
      if r in a && r != a[0] {
        var i :| 0 <= i < |a| && a[i] == r;
        assert a[1..][i - 1] == r;
      }
    }
  }

  lemma RowsUnchanged(prev: seq<Row>, curr: seq<Row>)
    requires Sorted(prev) && Sorted(curr)
    ensures Updated(ByName(prev), curr) == [] && ByName(prev).Keys - ByName(curr).Keys == {} <==> prev == curr
  {
    SortedIsUnique(prev);
    SortedIsUnique(curr);
    var p, c := ByName(prev), ByName(curr);
    if prev == curr {
      var u := Updated(p, curr);
      if u != [] {
        assert u[0] in u;
        ByNameFinds(prev, u[0]);
      }
    }
    if Updated(p, curr) == [] && p.Keys - c.Keys == {} {
      forall r ensures r in prev <==> r in curr {
        RowIsInBoth(prev, curr, r);
      }
      SortedIsDetermined(prev, curr);
    }
  }

  lemma RowIsInBoth(prev: seq<Row>, curr: seq<Row>, r: Row)
    requires Unique(prev) && Unique(curr) && Updated(ByName(prev), curr) == [] && ByName(prev).Keys - ByName(curr).Keys == {}
    ensures r in prev <==> r in curr
  {
    var p, c := ByName(prev), ByName(curr);
    if r in curr {
      assert r !in Updated(p, curr);
      assert p[r.name] == r;
    }
    if r in prev {
      ByNameFinds(prev, r);
      assert r.name !in p.Keys - c.Keys;
      assert c[r.name] !in Updated(p, curr);
    }
  }

  /** No delta is computed exactly when nothing but the number and the timestamp differs. */
  lemma NoDeltaMeansSame(prev: Summary, curr: Summary)
    requires Sorted(prev.rows) && Sorted(curr.rows)
    ensures Compute(prev, curr).None? <==> Same(prev, curr)
  {
    hide Updated, ByName;
    RowsUnchanged(prev.rows, curr.rows);
  }

  // ----- The broadcaster -----

  datatype Message = Full(summary: Summary) | Change(delta: Delta)

  datatype Broadcaster = Broadcaster(seqNo: nat, last: Option<Summary>)

  /** One round: the summary is numbered; without a change nothing is sent and the previous one is kept to compare with. */
  function Round(b: Broadcaster, latest: Summary): (Broadcaster, Option<Message>) {
    var curr := latest.(seqNo := b.seqNo + 1);
    if b.last.None? then (Broadcaster(b.seqNo + 1, Some(curr)), Some(Full(curr)))
    else
      var d := Compute(b.last.value, curr);
      if d.None? then (b.(seqNo := b.seqNo + 1), None) else (Broadcaster(b.seqNo + 1, Some(curr)), Some(Change(d.value)))
  }

  /** A client without a summary ignores deltas. */
  function Handle(c: Option<Client>, m: Option<Message>, checks: bool): Option<Client> {
    if m.None? then c
    else match m.value
         case Full(s) => Some(Load(s))
         case Change(d) => if c.None? then None else Some(Receive(c.value, d, checks))
  }

  /** A broadcaster and a client that has seen every message, after all these rounds. */
  function Play(b: Broadcaster, c: Option<Client>, rounds: seq<Summary>, checks: bool): (Broadcaster, Option<Client>) {
    if rounds == [] then (b, c)
    else
      var before := Play(b, c, rounds[..|rounds| - 1], checks);
      var r := Round(before.0, rounds[|rounds| - 1]);
      (r.0, Handle(before.1, r.1, checks))
  }

  /** The client holds the last summary that was sent. */
  ghost predicate InStep(b: Broadcaster, c: Option<Client>) {
    && (b.last.None? <==> c.None?)
    && (b.last.Some? ==> Sorted(b.last.value.rows) && Agree(c.value, Load(b.last.value)) && c.value.seqNo <= b.seqNo)
  }

  lemma RoundKeepsStep(b: Broadcaster, c: Option<Client>, latest: Summary, checks: bool)
    requires InStep(b, c) && Sorted(latest.rows)
    ensures var r := Round(b, latest);
            InStep(r.0, Handle(c, r.1, checks)) && Handle(c, r.1, checks).Some? && Agree(Handle(c, r.1, checks).value, Load(latest))
  {
    hide Difference, ByName, Merge;
    var curr := latest.(seqNo := b.seqNo + 1);
    SameToClients(latest, curr);
    if b.last.Some? {
      NoDeltaMeansSame(b.last.value, curr);
      SortedIsUnique(latest.rows);
      DeltaReplays(b.last.value, curr, c.value);
      if Compute(b.last.value, curr).None? {
        SameToClients(b.last.value, curr);
      }
      MergeIsNumbered(c.value, b.last.value, curr);
    }
  }

  lemma SameToClients(a: Summary, b: Summary)
    requires Same(a, b)
    ensures Agree(Load(a), Load(b))
  {
  }

  lemma MergeIsNumbered(c: Client, prev: Summary, curr: Summary)
    ensures Merge(c, Difference(prev, curr)).seqNo == Difference(prev, curr).seqNo == curr.seqNo
  {
  }

  /**
   * After any number of rounds, whatever changed or did not, a client that folded every message holds the latest
   * summary, whether or not it checks numbers.
   */
  lemma {:induction false} ReplayIsFaithful(rounds: seq<Summary>, checks: bool)
    requires forall s | s in rounds :: Sorted(s.rows)
    ensures var r := Play(Broadcaster(0, None), None, rounds, checks);
            InStep(r.0, r.1) && (rounds != [] ==> r.1.Some? && Agree(r.1.value, Load(rounds[|rounds| - 1])))
  {
    hide Round, Handle, Sorted;
    if rounds != [] {
      var init, last := rounds[..|rounds| - 1], rounds[|rounds| - 1];
      ReplayIsFaithful(init, checks);
      var before := Play(Broadcaster(0, None), None, init, checks);
      RoundKeepsStep(before.0, before.1, last, checks);
    } else {
      assert InStep(Broadcaster(0, None), None);
    }
  }

  /** A list that has been cleared is sent as an empty list, and one that has not changed is not sent. */
  lemma ClearedIsNotUnchanged(prev: List, curr: List)
    ensures ChangedList(prev, curr).None? <==> prev == curr
    ensures prev != curr && Plain(curr) == [] ==> ChangedList(prev, curr) == Some([])
  {
  }

  // ----- In place -----

  /** Indexes the rows by name, as the code does before it compares. */
  method IndexRows(rows: seq<Row>) returns (m: map<string, Row>)
    ensures m == ByName(rows)
  {
    m := map[];
    var i := 0;
    while i < |rows|
      invariant i <= |rows| && m == ByName(rows[..i])
    {
      assert rows[..i + 1][..i] == rows[..i];
      m := m[rows[i].name := rows[i]];
      i := i + 1;
    }
    assert rows[..|rows|] == rows;
  }

  method UpdatedRows(before: map<string, Row>, curr: seq<Row>) returns (updated: seq<Row>)
    ensures updated == Updated(before, curr)
  {
    updated := [];
    var i := 0;
    while i < |curr|
      invariant i <= |curr| && updated == Updated(before, curr[..i])
    {
      assert curr[..i + 1][..i] == curr[..i];
      var row := curr[i];
      if row.name !in before || before[row.name] != row {
        updated := updated + [row];
      }
      i := i + 1;
    }
    assert curr[..|curr|] == curr;
  }

  method RemovedNames(before: map<string, Row>, after: map<string, Row>) returns (removed: set<string>)
    ensures removed == before.Keys - after.Keys
  {
    removed := {};
    var names := before.Keys;
    while names != {}
      invariant names <= before.Keys && removed == before.Keys - names - after.Keys
      decreases names
    {
      var name :| name in names;
      names := names - {name};
      if name !in after {
        removed := removed + {name};
      }
    }
  }

  method DiffRows(prev: seq<Row>, curr: seq<Row>) returns (updated: seq<Row>, removed: set<string>)
    ensures updated == Updated(ByName(prev), curr) && removed == ByName(prev).Keys - ByName(curr).Keys
  {
    hide ByName, Updated;
    var before := IndexRows(prev);
    updated := UpdatedRows(before, curr);
    var after := IndexRows(curr);
    removed := RemovedNames(before, after);
  }

  method ComputeDelta(prev: Option<Summary>, curr: Option<Summary>) returns (d: Option<Delta>)
    ensures d == if prev.None? || curr.None? then None else Compute(prev.value, curr.value)
  {
    hide ByName, Updated;
    if prev.None? || curr.None? {
      return None;
    }
    var p, c := prev.value, curr.value;
    var scalars, lists := DiffScalars(p.scalars, c.scalars), DiffLists(p.lists, c.lists);
    var updated, removed := DiffRows(p.rows, c.rows);
    var changed := scalars != NO_SCALARS || lists != NO_LISTS || updated != [] || removed != {};
    if !changed {
      return None;
    }
    return Some(Delta(c.seqNo, c.timestamp, scalars, lists, updated, removed));
  }

  class WSBroadcaster {
    var seqNo: nat
    var lastSummary: Option<Summary>

    constructor ()
      ensures View() == Broadcaster(0, None)
    {
      seqNo, lastSummary := 0, None;
    }

    function View(): Broadcaster
      reads this
    {
      Broadcaster(seqNo, lastSummary)
    }

    /** Numbers the summary, and sends it whole or as a delta unless nothing changed. */
    method BroadcastUpdate(latest: Summary) returns (sent: Option<Message>)
      modifies this
      ensures (View(), sent) == Round(old(View()), latest)
    {
      hide Compute;
      seqNo := seqNo + 1;
      var summary := latest.(seqNo := seqNo);
      sent := Some(Full(summary));
      if lastSummary.Some? {
        var d := ComputeDelta(lastSummary, Some(summary));
        if d.None? {
          return None;
        }
        sent := Some(Change(d.value));
      }
      lastSummary := Some(summary);
    }
  }
}
