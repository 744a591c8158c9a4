/**
Ports: a host with room always has a block of ports left, and blocks never overlap.
*/
module FleetPorts {
  import opened Common
  import opened Scheduler
  import opened Fleet

  // ---- The series of port bases ----

  predicate OnSeries(c: Config, p: int) {
    c.portBaseStart <= p <= c.portBaseEnd && (p - c.portBaseStart) % PORT_BLOCK == 0
  }

  /** The bases from `start` to `end`, one for each block. */
  function Series(start: int, end: int): set<int>
    decreases end - start
  {
    if start > end then {} else {start} + Series(start + PORT_BLOCK, end)
  }

  lemma {:induction false} SeriesHolds(start: int, end: int, p: int)
    requires p in Series(start, end)
    ensures start <= p <= end && (p - start) % PORT_BLOCK == 0
    decreases end - start
  {
    if p != start {
      SeriesHolds(start + PORT_BLOCK, end, p);
    }
  }

  lemma {:induction false} SeriesCount(start: int, end: int)
    requires start <= end + PORT_BLOCK
    ensures |Series(start, end)| == if start > end then 0 else (end - start) / PORT_BLOCK + 1
    decreases end - start
  {
    if start <= end {
      SeriesCount(start + PORT_BLOCK, end);
      if start in Series(start + PORT_BLOCK, end) {
        SeriesHolds(start + PORT_BLOCK, end, start);
      }
    }
  }

  /** The search fails only if every base of the series is taken. */
  lemma {:induction false} SearchFails(taken: set<int>, p: int, end: int)
    requires LowestFree(taken, p, end).None?
    ensures Series(p, end) <= taken
    decreases end - p
  {
    if p <= end {
      SearchFails(taken, p + PORT_BLOCK, end);
    }
  }

  /** The search finds a base that is free, on the series, and below every other such base. */
  lemma {:induction false} SearchFinds(taken: set<int>, p: int, end: int)
    requires LowestFree(taken, p, end).Some?
    ensures var f := LowestFree(taken, p, end).value;
            && f !in taken && f in Series(p, end)
            && forall q <- Series(p, end) :: q < f ==> q in taken
    decreases end - p
  {
    if p in taken {
      SearchFinds(taken, p + PORT_BLOCK, end);
    } else {
      forall q <- Series(p, end)
        ensures p <= q
      {
        SeriesHolds(p, end, q);
      }
    }
  }

  // ---- No more ports than instances ----

  lemma {:induction false} PortsCount(nodes: seq<Node>, h: HostId)
    ensures |PortsOn(nodes, h)| <= Instances(nodes, h)
  {
    if nodes != [] {
      var n := |nodes| - 1;
      PortsCount(nodes[..n], h);
      assert nodes == nodes[..n] + [nodes[n]];
      if nodes[n].host == h {
        assert PortsOn(nodes, h) == PortsOn(nodes[..n], h) + {nodes[n].port};
      } else {
        assert PortsOn(nodes, h) == PortsOn(nodes[..n], h);
      }
    }
  }

  /** With fewer instances than blocks, there is a block left. */
  lemma PortFound(c: Config, nodes: seq<Node>, h: HostId)
    requires ValidConfig(c) && Instances(nodes, h) < PortBlocks(c)
    ensures FreePort(c, nodes, h).Some?
    ensures FreePort(c, nodes, h).value !in PortsOn(nodes, h) && OnSeries(c, FreePort(c, nodes, h).value)
  {
    PortsCount(nodes, h);
    SeriesCount(c.portBaseStart, c.portBaseEnd);
    if FreePort(c, nodes, h).None? {
      SearchFails(PortsOn(nodes, h), c.portBaseStart, c.portBaseEnd);
      SubsetCount(Series(c.portBaseStart, c.portBaseEnd), PortsOn(nodes, h));
    } else {
      SearchFinds(PortsOn(nodes, h), c.portBaseStart, c.portBaseEnd);
      SeriesHolds(c.portBaseStart, c.portBaseEnd, FreePort(c, nodes, h).value);
    }
  }

  /** Adding nodes to hosts of their own, each with a block left, never runs out of ports. */
  lemma {:induction false} AddAllSucceeds(w: World, id: DbId, number: nat, hosts: seq<Host>)
    requires ValidConfig(w.config)
    requires forall h <- hosts :: Instances(w.nodes, h.id) < PortBlocks(w.config)
    requires forall i, j | 0 <= i < j < |hosts| :: hosts[i].id != hosts[j].id
    ensures AddAll(w, id, number, hosts).Some?
    decreases |hosts|
  {
    if hosts != [] {
      PortFound(w.config, w.nodes, hosts[0].id);
      var w' := AddNode(w, id, number, hosts[0].id).value;
      assert w'.nodes[..|w.nodes|] == w.nodes;
      forall h <- hosts[1..]
        ensures Instances(w'.nodes, h.id) < PortBlocks(w.config)
      {
        assert h.id != hosts[0].id;
      }
      AddAllSucceeds(w', id, number + 1, hosts[1..]);
    }
  }

  // ---- Over every run ----

  predicate PortsOk(c: Config, nodes: seq<Node>) {
    && (forall n <- nodes :: OnSeries(c, n.port))
    && (forall i, j | 0 <= i < j < |nodes| :: nodes[i].host == nodes[j].host ==> nodes[i].port != nodes[j].port)
  }

  lemma AddKeepsPorts(w: World, id: DbId, number: nat, h: HostId)
    requires ValidConfig(w.config) && PortsOk(w.config, w.nodes) && AddNode(w, id, number, h).Some?
    ensures PortsOk(w.config, AddNode(w, id, number, h).value.nodes)
  {
    var taken := PortsOn(w.nodes, h);
    SearchFinds(taken, w.config.portBaseStart, w.config.portBaseEnd);
    SeriesHolds(w.config.portBaseStart, w.config.portBaseEnd, FreePort(w.config, w.nodes, h).value);
    forall i | 0 <= i < |w.nodes| && w.nodes[i].host == h
      ensures w.nodes[i].port in taken
    {
      assert w.nodes[i] in w.nodes;
    }
  }

  lemma {:induction false} AddAllKeepsPorts(w: World, id: DbId, number: nat, hosts: seq<Host>)
    requires ValidConfig(w.config) && PortsOk(w.config, w.nodes) && AddAll(w, id, number, hosts).Some?
    ensures AddAll(w, id, number, hosts).value.config == w.config
    ensures PortsOk(w.config, AddAll(w, id, number, hosts).value.nodes)
    decreases |hosts|
  {
    if hosts != [] {
      AddKeepsPorts(w, id, number, hosts[0].id);
      AddAllKeepsPorts(AddNode(w, id, number, hosts[0].id).value, id, number + 1, hosts[1..]);
    }
  }

  lemma {:induction false} WithoutKeepsPorts(c: Config, nodes: seq<Node>, id: DbId, number: Option<nat>)
    requires PortsOk(c, nodes)
    ensures PortsOk(c, Without(nodes, id, number))
  {
    if nodes != [] {
      var m := |nodes| - 1;
      WithoutKeepsPorts(c, nodes[..m], id, number);
      WithoutHolds(nodes[..m], id, number);
      var rest := Without(nodes[..m], id, number);
      forall i | 0 <= i < |rest|
        ensures rest[i].host == nodes[m].host ==> rest[i].port != nodes[m].port
      {
        assert rest[i] in nodes[..m];
      }
    }
  }

  lemma RetractedKeepsPorts(c: Config, nodes: seq<Node>, id: DbId, number: Option<nat>)
    requires PortsOk(c, nodes)
    ensures PortsOk(c, Retracted(nodes, id, number))
  {
    var after := Retracted(nodes, id, number);
    forall i | 0 <= i < |nodes|
      ensures after[i].port == nodes[i].port && nodes[i] in nodes
    {
    }
  }

  lemma StepKeepsPorts(w: World, e: Event)
    requires ValidConfig(w.config) && PortsOk(w.config, w.nodes)
    ensures Next(w, e).config == w.config && PortsOk(w.config, Next(w, e).nodes)
  {
    match e
    case PlaceAll(id, eligible) =>
      if CanPlace(w, id, eligible) && Chosen(w, id, eligible).Some? {
        var chosen := Chosen(w, id, eligible).value;
        if AddAll(w, id, 1, chosen).Some? {
          AddAllKeepsPorts(w, id, 1, chosen);
        }
      }
    case StartReplace(id, leaving, h) =>
      if CanReplace(w, id, leaving, h) {
        PortFound(w.config, w.nodes, h);
        AddKeepsPorts(w, id, Greatest(w.nodes, id) + 1, h);
      }
    case RetractOld(id) =>
      if id in w.dbs && w.dbs[id].stage.Replacing? {
        RetractedKeepsPorts(w.config, w.nodes, id, Some(w.dbs[id].stage.leaving));
      }
    case RetractAll(id) => RetractedKeepsPorts(w.config, w.nodes, id, None);
    case DropOld(id) =>
      if id in w.dbs && w.dbs[id].stage.Replacing? {
        WithoutKeepsPorts(w.config, w.nodes, id, Some(w.dbs[id].stage.leaving));
      }
    case Finalize(id) => WithoutKeepsPorts(w.config, w.nodes, id, None);
    case _ =>
  }

  lemma {:induction false} RunKeepsPorts(w: World, es: seq<Event>)
    requires Empty(w)
    ensures Run(w, es).config == w.config && PortsOk(w.config, Run(w, es).nodes)
  {
    if es != [] {
      RunKeepsPorts(w, es[..|es| - 1]);
      StepKeepsPorts(Run(w, es[..|es| - 1]), es[|es| - 1]);
    }
  }

  lemma Apart(c: Config, p: int, q: int)
    requires OnSeries(c, p) && OnSeries(c, q) && p != q
    ensures p + PORT_BLOCK <= q || q + PORT_BLOCK <= p
  {
  }

  // ---- The theorems ----

  /** In every state, no block of ten ports passes the last port, and two blocks of one host do not meet. */
  lemma BlocksNeverOverlap(w: World, es: seq<Event>)
    requires Empty(w)
    ensures var nodes := Run(w, es).nodes;
            && (forall n <- nodes :: 1024 <= n.port && n.port + PORT_BLOCK - 1 <= 65535)
            && forall i, j | 0 <= i < j < |nodes| && nodes[i].host == nodes[j].host ::
                 nodes[i].port + PORT_BLOCK <= nodes[j].port || nodes[j].port + PORT_BLOCK <= nodes[i].port
  {
    RunKeepsPorts(w, es);
    var nodes := Run(w, es).nodes;
    forall i, j | 0 <= i < j < |nodes| && nodes[i].host == nodes[j].host
      ensures nodes[i].port + PORT_BLOCK <= nodes[j].port || nodes[j].port + PORT_BLOCK <= nodes[i].port
    {
      assert nodes[i] in nodes && nodes[j] in nodes;
      Apart(w.config, nodes[i].port, nodes[j].port);
    }
  }

  /** In every state, a placement or a replacement that found hosts with room gets its ports. */
  lemma PortsNeverRunOut(w: World, es: seq<Event>, id: DbId)
    requires Empty(w)
    ensures forall eligible | CanPlace(Run(w, es), id, eligible) && Chosen(Run(w, es), id, eligible).Some? ::
              AddAll(Run(w, es), id, 1, Chosen(Run(w, es), id, eligible).value).Some?
    ensures forall leaving, h | CanReplace(Run(w, es), id, leaving, h) ::
              AddNode(Run(w, es), id, Greatest(Run(w, es).nodes, id) + 1, h).Some?
  {
    RunKeepsPorts(w, es);
    PlacingSucceeds(Run(w, es), id);
    JoiningSucceeds(Run(w, es), id);
  }

  lemma PlacingSucceeds(w: World, id: DbId)
    requires ValidConfig(w.config)
    ensures forall eligible | CanPlace(w, id, eligible) && Chosen(w, id, eligible).Some? ::
              AddAll(w, id, 1, Chosen(w, id, eligible).value).Some?
  {
    forall eligible | CanPlace(w, id, eligible) && Chosen(w, id, eligible).Some?
      ensures AddAll(w, id, 1, Chosen(w, id, eligible).value).Some?
    {
      ChosenHosts(w, id, eligible);
      AddAllSucceeds(w, id, 1, Chosen(w, id, eligible).value);
    }
  }

  lemma JoiningSucceeds(w: World, id: DbId)
    requires ValidConfig(w.config)
    ensures forall leaving, h | CanReplace(w, id, leaving, h) :: AddNode(w, id, Greatest(w.nodes, id) + 1, h).Some?
  {
    forall leaving, h | CanReplace(w, id, leaving, h)
      ensures AddNode(w, id, Greatest(w.nodes, id) + 1, h).Some?
    {
      PortFound(w.config, w.nodes, h);
    }
  }
}
