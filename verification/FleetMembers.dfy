/**
Members: a node's number, its Raft ID, is never used again, and a three-node database
always has three live nodes on hosts of their own, in three failure domains.
*/
module FleetMembers {
  import opened Common
  import opened Scheduler
  import opened Fleet

  /** Failure domains of a database's live nodes, leaving out some by number. */
  function Others(hosts: map<HostId, HostInfo>, nodes: seq<Node>, id: DbId, except: set<nat>): set<string> {
    set n <- nodes | IsLive(n, id) && n.number !in except :: DomainOf(hosts, n.host)
  }

  function LiveDomains(hosts: map<HostId, HostInfo>, nodes: seq<Node>, id: DbId): set<string> {
    Others(hosts, nodes, id, {})
  }

  predicate HasLive(nodes: seq<Node>, id: DbId, number: nat) {
    exists n <- nodes :: IsLive(n, id) && n.number == number
  }

  // ---- The invariant ----

  /** Two rows of one database have separate numbers, and separate hosts while both are live. */
  predicate Separate(a: Node, b: Node) {
    a.db == b.db ==> a.number != b.number && (!a.retracted && !b.retracted ==> a.host != b.host)
  }

  predicate PairsOk(nodes: seq<Node>) {
    forall i, j | 0 <= i < j < |nodes| :: Separate(nodes[i], nodes[j])
  }

  /** A live node has the greatest number there has been. */
  predicate Topped(nodes: seq<Node>, id: DbId, ever: set<nat>) {
    exists n <- nodes :: IsLive(n, id) && forall k <- ever :: k <= n.number
  }

  /** The node that joins is in, and there are domains enough without the one that leaves. */
  predicate Joining(hosts: map<HostId, HostInfo>, nodes: seq<Node>, id: DbId, leaving: nat, joining: nat) {
    leaving != joining && HasLive(nodes, id, joining) && |Others(hosts, nodes, id, {leaving})| >= HA_NODES
  }

  predicate DbOk(hosts: map<HostId, HostInfo>, nodes: seq<Node>, id: DbId, d: Db) {
    && (forall n <- nodes | n.db == id :: n.number in d.ever)
    && match d.stage
       case Creating => d.ever == {}
       case Serving =>
         && Topped(nodes, id, d.ever)
         && (d.ha ==> |LiveDomains(hosts, nodes, id)| >= HA_NODES)
       case Replacing(leaving, joining, retracted) =>
         && (forall k <- d.ever :: k <= joining)
         && Joining(hosts, nodes, id, leaving, joining)
         && (retracted ==> !HasLive(nodes, id, leaving))
       case _ => true
  }

  ghost predicate Inv(w: World) {
    && PairsOk(w.nodes)
    && (forall n <- w.nodes :: n.db in w.dbs)
    && (forall id <- w.dbs :: DbOk(w.hosts, w.nodes, id, w.dbs[id]))
  }

  predicate SameRows(nodes: seq<Node>, nodes': seq<Node>, id: DbId) {
    && (forall n <- nodes | n.db == id :: n in nodes')
    && (forall n <- nodes' | n.db == id :: n in nodes)
  }

  lemma OthersFrame(hosts: map<HostId, HostInfo>, nodes: seq<Node>, nodes': seq<Node>, id: DbId, except: set<nat>)
    requires SameRows(nodes, nodes', id)
    ensures Others(hosts, nodes, id, except) == Others(hosts, nodes', id, except)
  {
  }

  lemma ToppedFrame(nodes: seq<Node>, nodes': seq<Node>, id: DbId, ever: set<nat>)
    requires SameRows(nodes, nodes', id) && Topped(nodes, id, ever)
    ensures Topped(nodes', id, ever)
  {
    var n :| n in nodes && IsLive(n, id) && forall k <- ever :: k <= n.number;
    assert n in nodes';
  }

  /** What happens to other databases' rows does not matter to a database. */
  lemma DbFrame(hosts: map<HostId, HostInfo>, nodes: seq<Node>, nodes': seq<Node>, id: DbId, d: Db)
    requires DbOk(hosts, nodes, id, d) && SameRows(nodes, nodes', id)
    ensures DbOk(hosts, nodes', id, d)
  {
    match d.stage
    case Serving =>
      ToppedFrame(nodes, nodes', id, d.ever);
      OthersFrame(hosts, nodes, nodes', id, {});
    case Replacing(leaving, joining, retracted) =>
      OthersFrame(hosts, nodes, nodes', id, {leaving});
    case _ =>
  }

  // ---- Rows that match are marked or deleted ----

  lemma RetractedHolds(nodes: seq<Node>, id: DbId, number: Option<nat>)
    ensures forall n :: n in nodes && !Matches(n, id, number) ==> n in Retracted(nodes, id, number)
    ensures forall n <- Retracted(nodes, id, number) | Matches(n, id, number) ::
              n.retracted && (n in nodes || n.(retracted := false) in nodes)
    ensures forall n <- Retracted(nodes, id, number) | !Matches(n, id, number) :: n in nodes
    ensures PairsOk(nodes) ==> PairsOk(Retracted(nodes, id, number))
  {
    var after := Retracted(nodes, id, number);
    forall n | n in nodes && !Matches(n, id, number)
      ensures n in after
    {
      var i :| 0 <= i < |nodes| && nodes[i] == n;
      assert after[i] == n;
    }
    forall i | 0 <= i < |after|
      ensures Matches(after[i], id, number) ==> after[i].retracted && (after[i] in nodes || after[i].(retracted := false) in nodes)
      ensures !Matches(after[i], id, number) ==> after[i] in nodes
      ensures nodes[i] in nodes
    {
    }
  }

  lemma {:induction false} WithoutPairs(nodes: seq<Node>, id: DbId, number: Option<nat>)
    requires PairsOk(nodes)
    ensures PairsOk(Without(nodes, id, number))
  {
    if nodes != [] {
      var m := |nodes| - 1;
      WithoutPairs(nodes[..m], id, number);
      WithoutHolds(nodes[..m], id, number);
      var rest := Without(nodes[..m], id, number);
      forall i | 0 <= i < |rest|
        ensures Separate(rest[i], nodes[m])
      {
        assert rest[i] in nodes[..m];
      }
    }
  }

  /** Leaving one node out loses at most the domain of that node. */
  lemma OneDomainLess(hosts: map<HostId, HostInfo>, nodes: seq<Node>, id: DbId, leaving: nat)
    requires PairsOk(nodes)
    ensures |LiveDomains(hosts, nodes, id)| <= |Others(hosts, nodes, id, {leaving})| + 1
  {
    var kept := Others(hosts, nodes, id, {leaving});
    var before := LiveDomains(hosts, nodes, id);
    if left :| left in nodes && IsLive(left, id) && left.number == leaving {
      forall n | n in nodes && IsLive(n, id) && n.number == leaving
        ensures n == left
      {
      }
      assert before <= kept + {DomainOf(hosts, left.host)};
      SubsetCount(before, kept + {DomainOf(hosts, left.host)});
    } else {
      assert before <= kept;
      SubsetCount(before, kept);
    }
  }

  // ---- Nodes are added ----

  /** Live nodes of a database on some hosts, numbered in turn. */
  predicate RowsFor(rows: seq<Node>, id: DbId, number: nat, hosts: seq<Host>) {
    && |rows| == |hosts|
    && forall k | 0 <= k < |rows| ::
         IsLive(rows[k], id) && rows[k].number == number + k && rows[k].host == hosts[k].id
  }

  function NumbersOf(rows: seq<Node>): set<nat> {
    set n <- rows :: n.number
  }

  ghost predicate Adds(w: World, w': World, id: DbId, rows: seq<Node>, numbers: set<nat>)
    requires id in w.dbs
  {
    && w'.hosts == w.hosts && w'.nodes == w.nodes + rows
    && w'.dbs == w.dbs[id := w.dbs[id].(ever := w.dbs[id].ever + numbers)]
  }

  lemma AddsTogether(w: World, w1: World, w2: World, id: DbId, a: seq<Node>, b: seq<Node>)
    requires id in w.dbs && Adds(w, w1, id, a, NumbersOf(a))
    requires Adds(w1, w2, id, b, NumbersOf(b))
    ensures Adds(w, w2, id, a + b, NumbersOf(a + b))
  {
    assert w.nodes + (a + b) == w.nodes + a + b;
    assert NumbersOf(a + b) == NumbersOf(a) + NumbersOf(b);
    assert w.dbs[id].ever + (NumbersOf(a) + NumbersOf(b)) == w.dbs[id].ever + NumbersOf(a) + NumbersOf(b);
  }

  lemma AddNodeAdds(w: World, id: DbId, number: nat, h: HostId) returns (row: Node)
    requires id in w.dbs && AddNode(w, id, number, h).Some?
    ensures IsLive(row, id) && row.number == number && row.host == h
    ensures Adds(w, AddNode(w, id, number, h).value, id, [row], NumbersOf([row]))
  {
    row := Node(id, number, h, FreePort(w.config, w.nodes, h).value, false);
    assert NumbersOf([row]) == {number};
  }

  lemma {:induction false} AddAllAdds(w: World, id: DbId, number: nat, hosts: seq<Host>) returns (rows: seq<Node>)
    requires id in w.dbs && AddAll(w, id, number, hosts).Some?
    ensures RowsFor(rows, id, number, hosts)
    ensures Adds(w, AddAll(w, id, number, hosts).value, id, rows, NumbersOf(rows))
    decreases |hosts|
  {
    if hosts == [] {
      rows := [];
      assert w.dbs[id].ever + NumbersOf([]) == w.dbs[id].ever;
    } else {
      var w1 := AddNode(w, id, number, hosts[0].id).value;
      var first := AddNodeAdds(w, id, number, hosts[0].id);
      var rest := AddAllAdds(w1, id, number + 1, hosts[1..]);
      AddsTogether(w, w1, AddAll(w, id, number, hosts).value, id, [first], rest);
      rows := [first] + rest;
    }
  }

  lemma PairsConcat(a: seq<Node>, b: seq<Node>)
    requires PairsOk(a) && PairsOk(b) && forall x, y | x in a && y in b :: Separate(x, y)
    ensures PairsOk(a + b)
  {
    var c := a + b;
    forall i, j | 0 <= i < j < |c|
      ensures Separate(c[i], c[j])
    {
      if i < |a| <= j {
        assert c[i] in a && c[j] in b;
      }
    }
  }

  lemma PlacedPairs(w: World, id: DbId, rows: seq<Node>, hosts: seq<Host>)
    requires Inv(w) && id in w.dbs && w.dbs[id].ever == {} && RowsFor(rows, id, 1, hosts)
    requires forall i, j | 0 <= i < j < |hosts| :: hosts[i].id != hosts[j].id
    ensures PairsOk(w.nodes + rows)
  {
    assert DbOk(w.hosts, w.nodes, id, w.dbs[id]);
    assert forall n <- rows :: n.db == id;
    PairsConcat(w.nodes, rows);
  }

  lemma PlacedDomains(w: World, id: DbId, rows: seq<Node>, hosts: seq<Host>)
    requires Inv(w) && id in w.dbs && w.dbs[id].ever == {} && RowsFor(rows, id, 1, hosts)
    requires forall h <- hosts :: h.id in w.hosts && h == Load(w, h.id)
    ensures LiveDomains(w.hosts, w.nodes + rows, id) == Domains(hosts)
  {
    assert DbOk(w.hosts, w.nodes, id, w.dbs[id]);
    forall k | 0 <= k < |hosts|
      ensures DomainOf(w.hosts, rows[k].host) == Domain(hosts[k]) && rows[k] in rows && hosts[k] in hosts
    {
      assert hosts[k] in hosts;
    }
    forall h <- hosts
      ensures Domain(h) in LiveDomains(w.hosts, w.nodes + rows, id)
    {
      var k :| 0 <= k < |hosts| && hosts[k] == h;
      assert rows[k] in w.nodes + rows;
    }
  }

  lemma PlacedDbOk(w: World, id: DbId, rows: seq<Node>, hosts: seq<Host>)
    requires Inv(w) && id in w.dbs && w.dbs[id].ever == {} && RowsFor(rows, id, 1, hosts)
    requires forall h <- hosts :: h.id in w.hosts && h == Load(w, h.id)
    requires DistinctDomains(hosts) && |hosts| == (if w.dbs[id].ha then HA_NODES else 1)
    ensures DbOk(w.hosts, w.nodes + rows, id, w.dbs[id].(stage := Serving, ever := NumbersOf(rows)))
  {
    assert DbOk(w.hosts, w.nodes, id, w.dbs[id]);
    PlacedDomains(w, id, rows, hosts);
    DistinctDomainsCount(hosts);
    assert rows[|rows| - 1] in w.nodes + rows;
  }

  /** Adding nodes to a database leaves the others as they were. */
  lemma AddsOnlyFor(w: World, w': World, id: DbId, rows: seq<Node>, numbers: set<nat>, stage: Stage)
    requires Inv(w) && id in w.dbs && Adds(w, w', id, rows, numbers) && forall n <- rows :: n.db == id
    requires PairsOk(w'.nodes) && DbOk(w.hosts, w'.nodes, id, w'.dbs[id].(stage := stage))
    ensures Inv(Staged(w', id, stage))
  {
    forall other <- w.dbs | other != id
      ensures DbOk(w.hosts, w'.nodes, other, w.dbs[other])
    {
      assert SameRows(w.nodes, w'.nodes, other);
      DbFrame(w.hosts, w.nodes, w'.nodes, other, w.dbs[other]);
    }
  }

  lemma PlacedKeepsInv(w: World, w': World, id: DbId, rows: seq<Node>, hosts: seq<Host>)
    requires Inv(w) && id in w.dbs && w.dbs[id].ever == {}
    requires RowsFor(rows, id, 1, hosts) && Adds(w, w', id, rows, NumbersOf(rows))
    requires forall h <- hosts :: h.id in w.hosts && h == Load(w, h.id)
    requires forall i, j | 0 <= i < j < |hosts| :: hosts[i].id != hosts[j].id
    requires DistinctDomains(hosts) && |hosts| == (if w.dbs[id].ha then HA_NODES else 1)
    ensures Inv(Staged(w', id, Serving))
  {
    PlacedPairs(w, id, rows, hosts);
    PlacedDbOk(w, id, rows, hosts);
    assert {} + NumbersOf(rows) == NumbersOf(rows);
    assert w'.dbs[id].(stage := Serving) == w.dbs[id].(stage := Serving, ever := NumbersOf(rows));
    AddsOnlyFor(w, w', id, rows, NumbersOf(rows), Serving);
  }

  lemma CreatingIsFresh(w: World, id: DbId)
    requires Inv(w) && id in w.dbs && w.dbs[id].stage == Creating
    ensures w.dbs[id].ever == {}
  {
    assert DbOk(w.hosts, w.nodes, id, w.dbs[id]);
  }

  lemma PlaceKeepsInv(w: World, id: DbId, eligible: seq<HostId>)
    requires Inv(w) && CanPlace(w, id, eligible)
    ensures Inv(Placing(w, id, eligible))
  {
    var chosen := Chosen(w, id, eligible);
    if chosen.Some? && AddAll(w, id, 1, chosen.value).Some? {
      CreatingIsFresh(w, id);
      ChosenHosts(w, id, eligible);
      var rows := AddAllAdds(w, id, 1, chosen.value);
      PlacedKeepsInv(w, AddAll(w, id, 1, chosen.value).value, id, rows, chosen.value);
    }
  }

  // ---- A node joins to replace another ----

  lemma {:induction false} GreatestIs(nodes: seq<Node>, id: DbId)
    ensures forall n <- nodes | IsLive(n, id) :: n.number <= Greatest(nodes, id)
    ensures Greatest(nodes, id) == 0 || HasLive(nodes, id, Greatest(nodes, id))
  {
    if nodes != [] {
      var m := |nodes| - 1;
      GreatestIs(nodes[..m], id);
      assert nodes == nodes[..m] + [nodes[m]];
    }
  }

  /** The number given to a node that joins is above every one there has been. */
  lemma NumberIsNew(w: World, id: DbId)
    requires Inv(w) && id in w.dbs && w.dbs[id].stage == Serving
    ensures forall k <- w.dbs[id].ever :: k <= Greatest(w.nodes, id)
  {
    GreatestIs(w.nodes, id);
    assert DbOk(w.hosts, w.nodes, id, w.dbs[id]);
  }

  /** A node that joins in a domain of its own makes up for the one that leaves. */
  lemma JoinedIsJoining(hosts: map<HostId, HostInfo>, nodes: seq<Node>, id: DbId, leaving: nat, row: Node)
    requires PairsOk(nodes) && |LiveDomains(hosts, nodes, id)| >= HA_NODES
    requires IsLive(row, id) && leaving != row.number
    requires DomainOf(hosts, row.host) !in Others(hosts, nodes, id, {leaving})
    ensures Joining(hosts, nodes + [row], id, leaving, row.number)
  {
    OneDomainLess(hosts, nodes, id, leaving);
    assert row in nodes + [row];
    assert Others(hosts, nodes + [row], id, {leaving}) == Others(hosts, nodes, id, {leaving}) + {DomainOf(hosts, row.host)};
  }

  lemma JoinedDbOk(hosts: map<HostId, HostInfo>, nodes: seq<Node>, id: DbId, d: Db, d': Db, leaving: nat, row: Node)
    requires PairsOk(nodes) && DbOk(hosts, nodes, id, d) && d.stage == Serving && d.ha
    requires d' == d.(stage := Replacing(leaving, row.number, false), ever := d.ever + {row.number})
    requires IsLive(row, id) && leaving != row.number && forall k <- d.ever :: k < row.number
    requires DomainOf(hosts, row.host) !in Others(hosts, nodes, id, {leaving})
    ensures DbOk(hosts, nodes + [row], id, d')
  {
    JoinedIsJoining(hosts, nodes, id, leaving, row);
  }

  lemma JoinPairs(nodes: seq<Node>, row: Node)
    requires PairsOk(nodes)
    requires forall n <- nodes | n.db == row.db :: n.number != row.number && (!n.retracted ==> n.host != row.host)
    ensures PairsOk(nodes + [row])
  {
    PairsConcat(nodes, [row]);
  }

  lemma RowsBelow(w: World, id: DbId, number: nat)
    requires Inv(w) && id in w.dbs && forall k <- w.dbs[id].ever :: k < number
    ensures forall n <- w.nodes | n.db == id :: n.number < number
    ensures DbOk(w.hosts, w.nodes, id, w.dbs[id])
  {
  }

  function Joined(w: World, id: DbId, leaving: nat, row: Node): World
    requires id in w.dbs
  {
    Staged(w.(nodes := w.nodes + [row], dbs := w.dbs[id := w.dbs[id].(ever := w.dbs[id].ever + {row.number})]),
           id, Replacing(leaving, row.number, false))
  }

  lemma JoinKeepsInv(w: World, id: DbId, leaving: nat, row: Node)
    requires Inv(w) && id in w.dbs && w.dbs[id].ha && w.dbs[id].stage == Serving
    requires IsLive(row, id) && row.number != leaving && forall k <- w.dbs[id].ever :: k < row.number
    requires forall n <- w.nodes | IsLive(n, id) :: n.host != row.host
    requires DomainOf(w.hosts, row.host) !in Others(w.hosts, w.nodes, id, {leaving})
    ensures Inv(Joined(w, id, leaving, row))
  {
    var w' := w.(nodes := w.nodes + [row], dbs := w.dbs[id := w.dbs[id].(ever := w.dbs[id].ever + {row.number})]);
    RowsBelow(w, id, row.number);
    JoinPairs(w.nodes, row);
    JoinedDbOk(w.hosts, w.nodes, id, w.dbs[id], w'.dbs[id].(stage := Replacing(leaving, row.number, false)), leaving, row);
    AddsOnlyFor(w, w', id, [row], {row.number}, Replacing(leaving, row.number, false));
  }

  lemma ReplaceIsJoined(w: World, id: DbId, leaving: nat, h: HostId) returns (row: Node)
    requires CanReplace(w, id, leaving, h) && AddNode(w, id, Greatest(w.nodes, id) + 1, h).Some?
    ensures Replace(w, id, leaving, h) == Joined(w, id, leaving, row)
    ensures IsLive(row, id) && row.number == Greatest(w.nodes, id) + 1 && row.number != leaving && row.host == h
    ensures forall n <- w.nodes | IsLive(n, id) :: n.host != row.host
    ensures DomainOf(w.hosts, h) !in Others(w.hosts, w.nodes, id, {leaving})
  {
    GreatestIs(w.nodes, id);
    row := Node(id, Greatest(w.nodes, id) + 1, h, FreePort(w.config, w.nodes, h).value, false);
  }

  lemma ReplaceKeepsInv(w: World, id: DbId, leaving: nat, h: HostId)
    requires Inv(w) && CanReplace(w, id, leaving, h)
    ensures Inv(Replace(w, id, leaving, h))
  {
    if AddNode(w, id, Greatest(w.nodes, id) + 1, h).Some? {
      NumberIsNew(w, id);
      var row := ReplaceIsJoined(w, id, leaving, h);
      JoinKeepsInv(w, id, leaving, row);
    }
  }

  // ---- Rows change ----

  /** Marking or deleting rows of one database leaves the others as they were. */
  lemma ChangesOnlyFor(w: World, nodes: seq<Node>, id: DbId, stage: Stage)
    requires Inv(w) && id in w.dbs && PairsOk(nodes)
    requires forall n <- nodes :: n.db in w.dbs
    requires forall other | other != id :: SameRows(w.nodes, nodes, other)
    requires DbOk(w.hosts, nodes, id, w.dbs[id].(stage := stage))
    ensures Inv(Staged(w.(nodes := nodes), id, stage))
  {
    forall other <- w.dbs | other != id
      ensures DbOk(w.hosts, nodes, other, w.dbs[other])
    {
      DbFrame(w.hosts, w.nodes, nodes, other, w.dbs[other]);
    }
  }

  /** A row is the same one, live or not. */
  predicate SameRow(n: Node, nodes: seq<Node>) {
    n in nodes || n.(retracted := false) in nodes
  }

  lemma RetractedRows(w: World, id: DbId, number: Option<nat>)
    requires Inv(w) && id in w.dbs
    ensures var nodes := Retracted(w.nodes, id, number);
            && PairsOk(nodes)
            && (forall n <- nodes :: n.db in w.dbs && (n.db == id ==> n.number in w.dbs[id].ever))
            && forall other | other != id :: SameRows(w.nodes, nodes, other)
  {
    var nodes := Retracted(w.nodes, id, number);
    RetractedHolds(w.nodes, id, number);
    assert DbOk(w.hosts, w.nodes, id, w.dbs[id]);
    forall n <- nodes
      ensures n.db in w.dbs && (n.db == id ==> n.number in w.dbs[id].ever)
    {
      assert SameRow(n, w.nodes);
    }
  }

  lemma RetractedLive(hosts: map<HostId, HostInfo>, nodes: seq<Node>, id: DbId, leaving: nat)
    ensures Others(hosts, Retracted(nodes, id, Some(leaving)), id, {leaving}) == Others(hosts, nodes, id, {leaving})
    ensures !HasLive(Retracted(nodes, id, Some(leaving)), id, leaving)
  {
    RetractedHolds(nodes, id, Some(leaving));
  }

  lemma RetractKeepsInv(w: World, id: DbId)
    requires Inv(w) && id in w.dbs && w.dbs[id].stage.Replacing?
    ensures var stage := w.dbs[id].stage;
            Inv(Staged(w.(nodes := Retracted(w.nodes, id, Some(stage.leaving))), id, Replacing(stage.leaving, stage.joining, true)))
  {
    var leaving, joining := w.dbs[id].stage.leaving, w.dbs[id].stage.joining;
    var nodes := Retracted(w.nodes, id, Some(leaving));
    assert DbOk(w.hosts, w.nodes, id, w.dbs[id]);
    RetractedRows(w, id, Some(leaving));
    RetractedLive(w.hosts, w.nodes, id, leaving);
    assert HasLive(nodes, id, joining) by {
      RetractedHolds(w.nodes, id, Some(leaving));
    }
    ChangesOnlyFor(w, nodes, id, Replacing(leaving, joining, true));
  }

  lemma RetractAllKeepsInv(w: World, id: DbId)
    requires Inv(w) && id in w.dbs && w.dbs[id].stage.Deleting?
    ensures Inv(Staged(w.(nodes := Retracted(w.nodes, id, None)), id, Deleting(true)))
  {
    RetractedRows(w, id, None);
    ChangesOnlyFor(w, Retracted(w.nodes, id, None), id, Deleting(true));
  }

  lemma WithoutRows(w: World, id: DbId, number: Option<nat>)
    requires Inv(w) && id in w.dbs
    ensures var nodes := Without(w.nodes, id, number);
            && PairsOk(nodes)
            && (forall n <- nodes :: n.db in w.dbs && (n.db == id ==> n.number in w.dbs[id].ever))
            && forall other | other != id :: SameRows(w.nodes, nodes, other)
  {
    WithoutHolds(w.nodes, id, number);
    WithoutPairs(w.nodes, id, number);
    assert DbOk(w.hosts, w.nodes, id, w.dbs[id]);
  }

  /** A node on its way out is not live, so deleting its row changes no live node. */
  lemma DropKeepsInv(w: World, id: DbId)
    requires Inv(w) && id in w.dbs && w.dbs[id].stage.Replacing? && w.dbs[id].stage.retracted
    ensures Inv(w.(nodes := Without(w.nodes, id, Some(w.dbs[id].stage.leaving))))
  {
    var d := w.dbs[id];
    var nodes := Without(w.nodes, id, Some(d.stage.leaving));
    WithoutRows(w, id, Some(d.stage.leaving));
    DroppedDbOk(w.hosts, w.nodes, id, d);
    ChangesOnlyFor(w, nodes, id, d.stage);
    assert Staged(w.(nodes := nodes), id, d.stage) == w.(nodes := nodes);
  }

  lemma DroppedDbOk(hosts: map<HostId, HostInfo>, nodes: seq<Node>, id: DbId, d: Db)
    requires DbOk(hosts, nodes, id, d) && d.stage.Replacing? && d.stage.retracted
    ensures DbOk(hosts, Without(nodes, id, Some(d.stage.leaving)), id, d)
  {
    var after := Without(nodes, id, Some(d.stage.leaving));
    WithoutHolds(nodes, id, Some(d.stage.leaving));
    assert Others(hosts, after, id, {d.stage.leaving}) == Others(hosts, nodes, id, {d.stage.leaving});
    assert HasLive(after, id, d.stage.joining);
  }

  lemma FinalizeKeepsInv(w: World, id: DbId)
    requires Inv(w) && id in w.dbs && w.dbs[id].stage == Deleting(true)
    ensures Inv(Staged(w.(nodes := Without(w.nodes, id, None)), id, Gone))
  {
    WithoutRows(w, id, None);
    ChangesOnlyFor(w, Without(w.nodes, id, None), id, Gone);
  }

  /** A replacement that ends, done or part-way, leaves at least what there was. */
  lemma EndKeepsInv(w: World, id: DbId)
    requires Inv(w) && id in w.dbs && w.dbs[id].stage.Replacing?
    ensures Inv(Staged(w, id, Serving))
  {
    var d := w.dbs[id];
    assert DbOk(w.hosts, w.nodes, id, d);
    var joined :| joined in w.nodes && IsLive(joined, id) && joined.number == d.stage.joining;
    assert Topped(w.nodes, id, d.ever);
    SubsetCount(Others(w.hosts, w.nodes, id, {d.stage.leaving}), LiveDomains(w.hosts, w.nodes, id));
    ChangesOnlyFor(w, w.nodes, id, Serving);
    assert w.(nodes := w.nodes) == w;
  }

  lemma StepKeepsInv(w: World, e: Event)
    requires Inv(w)
    ensures Inv(Next(w, e))
  {
    match e
    case PlaceAll(id, eligible) =>
      if CanPlace(w, id, eligible) {
        PlaceKeepsInv(w, id, eligible);
      }
    case StartReplace(id, leaving, h) =>
      if CanReplace(w, id, leaving, h) {
        ReplaceKeepsInv(w, id, leaving, h);
      }
    case RetractOld(id) =>
      if id in w.dbs && w.dbs[id].stage.Replacing? {
        RetractKeepsInv(w, id);
      }
    case DropOld(id) =>
      if id in w.dbs && w.dbs[id].stage.Replacing? && w.dbs[id].stage.retracted {
        DropKeepsInv(w, id);
      }
    case EndReplace(id) =>
      if id in w.dbs && w.dbs[id].stage.Replacing? {
        EndKeepsInv(w, id);
      }
    case RetractAll(id) =>
      if id in w.dbs && w.dbs[id].stage.Deleting? {
        RetractAllKeepsInv(w, id);
      }
    case Finalize(id) =>
      if id in w.dbs && w.dbs[id].stage == Deleting(true) {
        FinalizeKeepsInv(w, id);
      }
    case _ =>
  }

  lemma {:induction false} RunKeepsInv(w: World, es: seq<Event>)
    requires Empty(w)
    ensures Inv(Run(w, es))
  {
    if es != [] {
      RunKeepsInv(w, es[..|es| - 1]);
      StepKeepsInv(Run(w, es[..|es| - 1]), es[|es| - 1]);
    }
  }

  // ---- Numbers there have been ----

  /** Every number there has been stays on record. */
  predicate Remembers(dbs: map<DbId, Db>, dbs': map<DbId, Db>) {
    forall id <- dbs :: id in dbs' && dbs[id].ever <= dbs'[id].ever
  }

  lemma {:induction false} AddAllRemembers(w: World, id: DbId, number: nat, hosts: seq<Host>)
    requires id in w.dbs && AddAll(w, id, number, hosts).Some?
    ensures Remembers(w.dbs, AddAll(w, id, number, hosts).value.dbs)
  {
    var rows := AddAllAdds(w, id, number, hosts);
  }

  lemma StepRemembers(w: World, e: Event)
    ensures Remembers(w.dbs, Next(w, e).dbs)
  {
    match e
    case PlaceAll(id, eligible) =>
      if CanPlace(w, id, eligible) && Chosen(w, id, eligible).Some? {
        var chosen := Chosen(w, id, eligible).value;
        if AddAll(w, id, 1, chosen).Some? {
          AddAllRemembers(w, id, 1, chosen);
        }
      }
    case _ =>
  }

  lemma {:induction false} RunRemembers(w: World, es: seq<Event>, i: nat)
    requires i <= |es|
    ensures Remembers(Run(w, es[..i]).dbs, Run(w, es).dbs)
  {
    if i == |es| {
      assert es[..i] == es;
    } else {
      var m := |es| - 1;
      RunRemembers(w, es[..m], i);
      assert es[..m][..i] == es[..i];
      StepRemembers(Run(w, es[..m]), es[m]);
    }
  }

  // ---- The theorems ----

  /**
  The number a replacement gets is above the number of every node the database has at
  any earlier moment of the run, live, on its way out or since deleted.
  */
  lemma NumbersAreNeverReused(w: World, es: seq<Event>, i: nat, n: Node, leaving: nat, h: HostId)
    requires Empty(w) && i <= |es| && n in Run(w, es[..i]).nodes
    requires CanReplace(Run(w, es), n.db, leaving, h)
    ensures n.number < Greatest(Run(w, es).nodes, n.db) + 1
  {
    RunKeepsInv(w, es[..i]);
    RunKeepsInv(w, es);
    RunRemembers(w, es, i);
    NumberIsNew(Run(w, es), n.db);
    assert DbOk(w.hosts, Run(w, es[..i]).nodes, n.db, Run(w, es[..i]).dbs[n.db]) by { HostsStay(w, es[..i]); }
  }

  lemma {:induction false} HostsStay(w: World, es: seq<Event>)
    ensures Run(w, es).hosts == w.hosts
  {
    if es != [] {
      var m := |es| - 1;
      HostsStay(w, es[..m]);
      StepHostsStay(Run(w, es[..m]), es[m]);
    }
  }

  lemma StepHostsStay(w: World, e: Event)
    ensures Next(w, e).hosts == w.hosts
  {
    match e
    case PlaceAll(id, eligible) =>
      if CanPlace(w, id, eligible) && Chosen(w, id, eligible).Some? {
        var chosen := Chosen(w, id, eligible).value;
        if AddAll(w, id, 1, chosen).Some? {
          var rows := AddAllAdds(w, id, 1, chosen);
        }
      }
    case _ =>
  }

  /** The live nodes of a database are on hosts of their own. */
  predicate LiveApart(nodes: seq<Node>, id: DbId) {
    forall i, j | 0 <= i < j < |nodes| && IsLive(nodes[i], id) && IsLive(nodes[j], id) :: nodes[i].host != nodes[j].host
  }

  /**
  From its placement until its deletion, whatever replacements finish or fail part-way, a
  three-node database has live nodes on three hosts, in three failure domains, no two on one.
  */
  lemma AlwaysThreeLive(w: World, es: seq<Event>, id: DbId)
    requires Empty(w)
    requires var d := Run(w, es).dbs; id in d && d[id].ha && (d[id].stage.Serving? || d[id].stage.Replacing?)
    ensures var w' := Run(w, es);
            && |LiveDomains(w'.hosts, w'.nodes, id)| >= HA_NODES
            && |LiveHosts(w'.nodes, id)| >= HA_NODES
            && LiveApart(w'.nodes, id)
  {
    RunKeepsInv(w, es);
    var w' := Run(w, es);
    assert DbOk(w'.hosts, w'.nodes, id, w'.dbs[id]);
    if w'.dbs[id].stage.Replacing? {
      SubsetCount(Others(w'.hosts, w'.nodes, id, {w'.dbs[id].stage.leaving}), LiveDomains(w'.hosts, w'.nodes, id));
    }
    ImageCount(w'.hosts, LiveHosts(w'.nodes, id));
    assert LiveDomains(w'.hosts, w'.nodes, id) == set h <- LiveHosts(w'.nodes, id) :: DomainOf(w'.hosts, h);
  }

  /** There are no more domains than hosts. */
  lemma {:induction false} ImageCount(hosts: map<HostId, HostInfo>, hs: set<HostId>)
    ensures |set h <- hs :: DomainOf(hosts, h)| <= |hs|
  {
    if |hs| > 0 {
      var h :| h in hs;
      ImageCount(hosts, hs - {h});
      assert (set x <- hs :: DomainOf(hosts, x)) == (set x <- hs - {h} :: DomainOf(hosts, x)) + {DomainOf(hosts, h)};
    }
  }
}
