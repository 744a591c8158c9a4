/**
A run after which a resize is allowed and overfills a host: a three-node database loses
its place on a small host, the replacement ends before the old node is gone, and then
the database grows.
*/
module FleetOvercommit {
  import opened Common
  import opened Scheduler
  import opened Fleet
  import opened FleetLoad
  import Members = FleetMembers
  import Ports = FleetPorts

  const FOUR := Resources(4.0, 4.0, 4.0)
  const SIX := Resources(6.0, 6.0, 6.0)

  function SizedHost(size: real): HostInfo {
    HostInfo(None, Some(Resources(size, size, size)))
  }

  /** A small host and three larger ones, with nothing kept back. */
  predicate FourHosts(w: World, a: HostId, b: HostId, c: HostId, d: HostId) {
    && Empty(w) && w.config == Config(0.0, 0.0, 0.0, 20000, 32760)
    && a != b && a != c && a != d && b != c && b != d && c != d
    && a in w.hosts && b in w.hosts && c in w.hosts && d in w.hosts
    && w.hosts[a] == SizedHost(5.0)
    && w.hosts[b] == w.hosts[c] == w.hosts[d] == SizedHost(10.0)
  }

  // ---- What a host with at most one node uses ----

  lemma {:induction false} UsedNone(dbs: map<DbId, Db>, nodes: seq<Node>, h: HostId)
    requires forall n <- nodes :: n.host != h
    ensures Used(dbs, nodes, h) == NOTHING && Instances(nodes, h) == 0
  {
    if nodes != [] {
      assert nodes[|nodes| - 1] in nodes;
      UsedNone(dbs, nodes[..|nodes| - 1], h);
    }
  }

  lemma {:induction false} UsedOnce(dbs: map<DbId, Db>, nodes: seq<Node>, i: nat, h: HostId)
    requires i < |nodes| && forall j | 0 <= j < |nodes| :: nodes[j].host == h <==> j == i
    ensures Used(dbs, nodes, h) == Size(dbs, nodes[i])
  {
    var m := |nodes| - 1;
    if i < m {
      UsedOnce(dbs, nodes[..m], i, h);
    } else {
      UsedNone(dbs, nodes[..m], h);
    }
  }

  // ---- The placement ----

  function Created(w: World): World {
    w.(dbs := w.dbs[0 := Db(true, FOUR, Creating, {})])
  }

  lemma HasRoomThere(w: World, h: HostId, size: real, dbs: map<DbId, Db>, nodes: seq<Node>)
    requires h in w.hosts && w.hosts[h] == SizedHost(size) && size >= 4.0
    requires w.config == Config(0.0, 0.0, 0.0, 20000, 32760) && forall n <- nodes :: n.host != h
    ensures HasRoom(w.config, Load(w.(dbs := dbs, nodes := nodes), h), FOUR)
  {
    UsedNone(dbs, nodes, h);
  }

  /** Enough hosts with room, each a domain of its own, are enough for a placement. */
  lemma RoomIsChosen(w: World, id: DbId, eligible: seq<HostId>)
    requires CanPlace(w, id, eligible) && |eligible| >= if w.dbs[id].ha then HA_NODES else 1
    requires forall h <- eligible :: DomainOf(w.hosts, h) == h && HasRoom(w.config, Load(w, h), w.dbs[id].resources)
    ensures Chosen(w, id, eligible).Some?
  {
    var loads := Loads(w, eligible);
    var sorted := ByFree(w.config, loads);
    ByFreeSorts(w.config, loads);
    SameHosts(sorted, loads);
    RoomyHolds(w.config, sorted, w.dbs[id].resources);
    var roomy := Roomy(w.config, sorted, w.dbs[id].resources);
    forall i | 0 <= i < |eligible|
      ensures Domain(loads[i]) == eligible[i] && loads[i] in roomy
    {
      assert eligible[i] in eligible;
    }
    assert DistinctDomains(loads);
    DistinctDomainsCount(loads);
    SubsetCount(Domains(loads), Domains(roomy));
    FirstsCount(roomy);
  }

  lemma ThreeHaveRoom(w: World, a: HostId, b: HostId, c: HostId, d: HostId)
    requires FourHosts(w, a, b, c, d)
    ensures forall h <- {a, b, c} :: HasRoom(w.config, Load(Created(w), h), FOUR)
  {
    var dbs := Created(w).dbs;
    HasRoomThere(w, a, 5.0, dbs, w.nodes);
    HasRoomThere(w, b, 10.0, dbs, w.nodes);
    HasRoomThere(w, c, 10.0, dbs, w.nodes);
    assert Created(w) == w.(dbs := dbs, nodes := w.nodes);
  }

  lemma ThreeAreChosen(w: World, a: HostId, b: HostId, c: HostId, d: HostId)
    requires FourHosts(w, a, b, c, d)
    ensures CanPlace(Created(w), 0, [a, b, c]) && Chosen(Created(w), 0, [a, b, c]).Some?
  {
    ThreeHaveRoom(w, a, b, c, d);
    RoomIsChosen(Created(w), 0, [a, b, c]);
  }

  /** One live node of the database on each of three hosts. */
  predicate OnThree(rows: seq<Node>, a: HostId, b: HostId, c: HostId) {
    && |rows| == 3
    && (forall k | 0 <= k < 3 :: IsLive(rows[k], 0) && rows[k].number == 1 + k && rows[k].host in {a, b, c})
    && rows[0].host != rows[1].host && rows[0].host != rows[2].host && rows[1].host != rows[2].host
  }

  function Placed(w: World, rows: seq<Node>): World {
    w.(nodes := rows, dbs := w.dbs[0 := Db(true, FOUR, Serving, Members.NumbersOf(rows))])
  }

  lemma RowsOnThree(rows: seq<Node>, chosen: seq<Host>, a: HostId, b: HostId, c: HostId)
    requires |chosen| == 3 && Members.RowsFor(rows, 0, 1, chosen)
    requires forall h <- chosen :: h.id in [a, b, c]
    requires forall i, j | 0 <= i < j < |chosen| :: chosen[i].id != chosen[j].id
    ensures OnThree(rows, a, b, c)
  {
    forall k | 0 <= k < 3
      ensures rows[k].host in {a, b, c}
    {
      assert chosen[k] in chosen;
    }
  }

  /** What a placement that found its hosts leaves. */
  lemma PlacingAdds(w: World, id: DbId, eligible: seq<HostId>) returns (w': World, rows: seq<Node>, chosen: seq<Host>)
    requires ValidConfig(w.config) && CanPlace(w, id, eligible) && Chosen(w, id, eligible).Some?
    ensures id in w'.dbs && Placing(w, id, eligible) == Staged(w', id, Serving) && w'.config == w.config
    ensures Members.Adds(w, w', id, rows, Members.NumbersOf(rows)) && Members.RowsFor(rows, id, 1, chosen)
    ensures chosen == Chosen(w, id, eligible).value
    ensures |chosen| == (if w.dbs[id].ha then HA_NODES else 1) && (forall h <- chosen :: h.id in eligible)
    ensures forall i, j | 0 <= i < j < |chosen| :: chosen[i].id != chosen[j].id
  {
    ChosenHosts(w, id, eligible);
    chosen := Chosen(w, id, eligible).value;
    Ports.AddAllSucceeds(w, id, 1, chosen);
    rows := Members.AddAllAdds(w, id, 1, chosen);
    AddAllKeepsConfig(w, id, 1, chosen);
    w' := AddAll(w, id, 1, chosen).value;
  }

  lemma PlacesThree(w: World, a: HostId, b: HostId, c: HostId, d: HostId) returns (rows: seq<Node>)
    requires FourHosts(w, a, b, c, d)
    ensures OnThree(rows, a, b, c) && Next(Created(w), PlaceAll(0, [a, b, c])) == Placed(w, rows)
  {
    ThreeAreChosen(w, a, b, c, d);
    var w', three, chosen := PlacingAdds(Created(w), 0, [a, b, c]);
    rows := three;
    RowsOnThree(rows, chosen, a, b, c);
    PlacedIs(w, w', rows);
  }

  lemma PlacedIs(w: World, w': World, rows: seq<Node>)
    requires w.nodes == [] && w'.config == w.config && Members.Adds(Created(w), w', 0, rows, Members.NumbersOf(rows))
    ensures Staged(w', 0, Serving) == Placed(w, rows)
  {
    assert [] + rows == rows;
    assert {} + Members.NumbersOf(rows) == Members.NumbersOf(rows);
  }

  lemma {:induction false} AddAllKeepsConfig(w: World, id: DbId, number: nat, hosts: seq<Host>)
    requires AddAll(w, id, number, hosts).Some?
    ensures AddAll(w, id, number, hosts).value.config == w.config
    decreases |hosts|
  {
    if hosts != [] {
      AddAllKeepsConfig(AddNode(w, id, number, hosts[0].id).value, id, number + 1, hosts[1..]);
    }
  }

  // ---- The replacement, and the resize ----

  /** The node on the small host is on its way out, and one on the fourth host has joined. */
  function HalfReplaced(w: World, rows: seq<Node>, leaving: nat, joined: Node): World {
    w.(nodes := Retracted(rows + [joined], 0, Some(leaving)),
       dbs := w.dbs[0 := Db(true, FOUR, Serving, Members.NumbersOf(rows) + {joined.number})])
  }

  lemma CanMove(w: World, rows: seq<Node>, k: nat, a: HostId, b: HostId, c: HostId, d: HostId)
    requires FourHosts(w, a, b, c, d) && OnThree(rows, a, b, c) && k < 3 && rows[k].host == a
    ensures CanReplace(Placed(w, rows), 0, 1 + k, d)
  {
    assert rows[k] in rows;
    forall n <- rows
      ensures n.host in {a, b, c}
    {
    }
    HasRoomThere(w, d, 10.0, Placed(w, rows).dbs, rows);
    assert Placed(w, rows) == w.(dbs := Placed(w, rows).dbs, nodes := rows);
  }

  lemma Moves(w: World, rows: seq<Node>, k: nat, a: HostId, b: HostId, c: HostId, d: HostId) returns (joined: Node)
    requires FourHosts(w, a, b, c, d) && OnThree(rows, a, b, c) && k < 3 && rows[k].host == a
    ensures IsLive(joined, 0) && joined.host == d && joined.number != 1 + k
    ensures Next(Next(Next(Placed(w, rows), StartReplace(0, 1 + k, d)), RetractOld(0)), EndReplace(0))
         == HalfReplaced(w, rows, 1 + k, joined)
  {
    var wp := Placed(w, rows);
    CanMove(w, rows, k, a, b, c, d);
    Ports.PortFound(wp.config, wp.nodes, d);
    joined := Members.ReplaceIsJoined(wp, 0, 1 + k, d);
    var w1 := Members.Joined(wp, 0, 1 + k, joined);
    assert Next(wp, StartReplace(0, 1 + k, d)) == w1;
    var w2 := Next(w1, RetractOld(0));
    assert w2.dbs[0] == w1.dbs[0].(stage := Replacing(1 + k, joined.number, true));
    assert w2.dbs[0 := w2.dbs[0].(stage := Serving)] == HalfReplaced(w, rows, 1 + k, joined).dbs;
  }

  lemma UsesOfFour(dbs: map<DbId, Db>, rows: seq<Node>, joined: Node, leaving: nat, h: HostId, a: HostId, b: HostId, c: HostId, d: HostId)
    requires OnThree(rows, a, b, c) && d !in {a, b, c} && a != b && a != c && b != c
    requires IsLive(joined, 0) && joined.host == d && h in {a, b, c, d} && 0 in dbs
    ensures Used(dbs, Retracted(rows + [joined], 0, Some(leaving)), h) == dbs[0].resources
    ensures Instances(Retracted(rows + [joined], 0, Some(leaving)), h) > 0
  {
    var nodes := rows + [joined];
    var i := if h == d then 3 else if rows[0].host == h then 0 else if rows[1].host == h then 1 else 2;
    assert nodes[i].host == h;
    UsedOnce(dbs, nodes, i, h);
    RetractedUsesTheSame(dbs, nodes, 0, Some(leaving), h);
    assert nodes[i] in nodes;
    InstanceCounted(nodes, h, nodes[i]);
  }

  lemma LiveOnOthers(rows: seq<Node>, k: nat, joined: Node, a: HostId, b: HostId, c: HostId, d: HostId)
    requires OnThree(rows, a, b, c) && k < 3 && rows[k].host == a && IsLive(joined, 0) && joined.host == d
    ensures LiveHosts(Retracted(rows + [joined], 0, Some(1 + k)), 0) <= {b, c, d}
  {
    var after := Retracted(rows + [joined], 0, Some(1 + k));
    forall i | 0 <= i < |after| && IsLive(after[i], 0)
      ensures after[i].host in {b, c, d}
    {
      assert i != k;
    }
  }

  lemma LargeHostMayGrow(w: World, h: HostId)
    requires h in w.hosts && w.hosts[h] == SizedHost(10.0) && Used(w.dbs, w.nodes, h) == FOUR
    requires w.config == Config(0.0, 0.0, 0.0, 20000, 32760)
    ensures Free(w.config, Load(w, h)).Some? && Fits(Free(w.config, Load(w, h)).value, Growth(FOUR, SIX))
  {
  }

  lemma HalfReplacedMayGrow(w: World, rows: seq<Node>, k: nat, joined: Node, a: HostId, b: HostId, c: HostId, d: HostId)
    requires FourHosts(w, a, b, c, d) && OnThree(rows, a, b, c) && k < 3 && rows[k].host == a
    requires IsLive(joined, 0) && joined.host == d
    ensures ResizeAllowed(HalfReplaced(w, rows, 1 + k, joined), 0, SIX)
  {
    var wh := HalfReplaced(w, rows, 1 + k, joined);
    LiveOnOthers(rows, k, joined, a, b, c, d);
    forall h <- LiveHosts(wh.nodes, 0)
      ensures h in wh.hosts && Free(wh.config, Load(wh, h)).Some?
      ensures Fits(Free(wh.config, Load(wh, h)).value, Growth(FOUR, SIX))
    {
      UsesOfFour(wh.dbs, rows, joined, 1 + k, h, a, b, c, d);
      LargeHostMayGrow(wh, h);
    }
  }

  lemma HalfReplacedOverflows(w: World, rows: seq<Node>, k: nat, joined: Node, a: HostId, b: HostId, c: HostId, d: HostId)
    requires FourHosts(w, a, b, c, d) && OnThree(rows, a, b, c) && k < 3 && rows[k].host == a
    requires IsLive(joined, 0) && joined.host == d
    ensures !AllWithin(Resized(HalfReplaced(w, rows, 1 + k, joined), 0, SIX))
  {
    var wr := Resized(HalfReplaced(w, rows, 1 + k, joined), 0, SIX);
    UsesOfFour(wr.dbs, rows, joined, 1 + k, a, a, b, c, d);
    assert !Within(wr, a);
  }

  lemma RunExtend(w: World, es: seq<Event>, e: Event)
    ensures Run(w, es + [e]) == Next(Run(w, es), e)
  {
    assert (es + [e])[..|es|] == es;
  }

  lemma RunOfFive(w: World, e1: Event, e2: Event, e3: Event, e4: Event, e5: Event)
    ensures Run(w, [e1, e2, e3, e4, e5]) == Next(Next(Next(Next(Next(w, e1), e2), e3), e4), e5)
  {
    RunExtend(w, [], e1);
    RunExtend(w, [e1], e2);
    RunExtend(w, [e1, e2], e3);
    RunExtend(w, [e1, e2, e3], e4);
    RunExtend(w, [e1, e2, e3, e4], e5);
    assert [] + [e1] == [e1] && [e1] + [e2] == [e1, e2] && [e1, e2] + [e3] == [e1, e2, e3];
    assert [e1, e2, e3] + [e4] == [e1, e2, e3, e4] && [e1, e2, e3, e4] + [e5] == [e1, e2, e3, e4, e5];
  }

  lemma CreatesIt(w: World, a: HostId, b: HostId, c: HostId, d: HostId)
    requires FourHosts(w, a, b, c, d)
    ensures Next(w, Create(0, true, FOUR)) == Created(w)
  {
  }

  lemma NoResizeIsCareful(w: World, es: seq<Event>)
    requires forall e <- es :: !e.Resize?
    ensures Careful(w, es)
  {
    assert forall i | 0 <= i < |es| :: es[i] in es;
  }

  function RunOf(k: nat, a: HostId, b: HostId, c: HostId, d: HostId): seq<Event> {
    [Create(0, true, FOUR), PlaceAll(0, [a, b, c]), StartReplace(0, 1 + k, d), RetractOld(0), EndReplace(0)]
  }

  lemma RunReaches(w: World, rows: seq<Node>, k: nat, joined: Node, a: HostId, b: HostId, c: HostId, d: HostId)
    requires Next(w, Create(0, true, FOUR)) == Created(w)
    requires Next(Created(w), PlaceAll(0, [a, b, c])) == Placed(w, rows)
    requires Next(Next(Next(Placed(w, rows), StartReplace(0, 1 + k, d)), RetractOld(0)), EndReplace(0))
          == HalfReplaced(w, rows, 1 + k, joined)
    ensures Run(w, RunOf(k, a, b, c, d)) == HalfReplaced(w, rows, 1 + k, joined)
  {
    RunOfFive(w, Create(0, true, FOUR), PlaceAll(0, [a, b, c]), StartReplace(0, 1 + k, d), RetractOld(0), EndReplace(0));
  }

  /** From any four such hosts there is a run, and a resize allowed after it, that overfills one of them. */
  lemma ResizeCanOvercommit(w: World, a: HostId, b: HostId, c: HostId, d: HostId) returns (es: seq<Event>)
    requires FourHosts(w, a, b, c, d)
    ensures Careful(w, es) && ResizeAllowed(Run(w, es), 0, SIX) && !AllWithin(Resized(Run(w, es), 0, SIX))
  {
    CreatesIt(w, a, b, c, d);
    var rows := PlacesThree(w, a, b, c, d);
    var k: nat :| k < 3 && rows[k].host == a;
    var joined := Moves(w, rows, k, a, b, c, d);
    es := RunOf(k, a, b, c, d);
    RunReaches(w, rows, k, joined, a, b, c, d);
    NoResizeIsCareful(w, es);
    HalfReplacedMayGrow(w, rows, k, joined, a, b, c, d);
    HalfReplacedOverflows(w, rows, k, joined, a, b, c, d);
  }
}
