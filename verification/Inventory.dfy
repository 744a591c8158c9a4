/** The rows behind the fleet, and the transactions that change them. */
module Inventory {
  import opened Common
  import opened Scheduler
  import opened Fleet
  import FleetPorts

  class Rows {
    const config: Config
    var hosts: map<HostId, HostInfo>
    var dbs: map<DbId, Db>
    var nodes: seq<Node>

    function State(): World
      reads this
    {
      World(config, hosts, dbs, nodes)
    }

    constructor (config: Config, hosts: map<HostId, HostInfo>)
      ensures State() == World(config, hosts, map[], [])
    {
      this.config, this.hosts, this.dbs, this.nodes := config, hosts, map[], [];
    }

    /** Try each base of the series until one is not taken on the host. */
    method FindPort(h: HostId) returns (port: Option<int>)
      ensures port == FreePort(config, nodes, h)
      ensures port.Some? ==> port.value !in PortsOn(nodes, h)
    {
      var taken := PortsOn(nodes, h);
      var p := config.portBaseStart;
      while p <= config.portBaseEnd && p in taken
        invariant LowestFree(taken, p, config.portBaseEnd) == FreePort(config, nodes, h)
        decreases config.portBaseEnd - p
      {
        p := p + PORT_BLOCK;
      }
      port := if p <= config.portBaseEnd then Some(p) else None;
    }

    /** Record a node on a host, with the lowest ports left there. */
    method AddNode(id: DbId, number: nat, h: HostId) returns (port: Option<int>)
      requires id in dbs
      modifies this`nodes, this`dbs
      ensures port == FreePort(config, old(nodes), h)
      ensures port.None? ==> State() == old(State()) && Fleet.AddNode(old(State()), id, number, h).None?
      ensures port.Some? ==> Fleet.AddNode(old(State()), id, number, h) == Some(State())
      ensures dbs.Keys == old(dbs.Keys)
    {
      port := FindPort(h);
      if port.Some? {
        nodes := nodes + [Node(id, number, h, port.value, false)];
        dbs := dbs[id := dbs[id].(ever := dbs[id].ever + {number})];
      }
    }

    /** Choose hosts and add a node to each. With room checked, ports never run out half-way. */
    method PlaceAll(id: DbId, eligible: seq<HostId>)
      requires ValidConfig(config) && CanPlace(State(), id, eligible)
      modifies this`nodes, this`dbs
      ensures State() == Placing(old(State()), id, eligible)
    {
      ghost var before := State();
      var roomy := Roomy(config, ByFree(config, Loads(State(), eligible)), dbs[id].resources);
      var chosen := ChooseHosts(roomy, if dbs[id].ha then HA_NODES else 1);
      if chosen.None? {
        return;
      }
      ChosenHosts(before, id, eligible);
      FleetPorts.AddAllSucceeds(before, id, 1, chosen.value);
      var i := 0;
      while i < |chosen.value|
        invariant i <= |chosen.value| && id in dbs
        invariant AddAll(State(), id, 1 + i, chosen.value[i..]) == AddAll(before, id, 1, chosen.value)
      {
        assert chosen.value[i..][1..] == chosen.value[i + 1..];
        var port := AddNode(id, 1 + i, chosen.value[i].id);
        i := i + 1;
      }
      assert chosen.value[i..] == [];
      dbs := dbs[id := dbs[id].(stage := Serving)];
    }

    /** Look at the database's live nodes in turn: the wanted host must be new to them all, in a domain of its own. */
    method HostSuits(id: DbId, leaving: nat, h: HostId) returns (suits: bool, present: bool)
      ensures present <==> exists n <- nodes :: IsLive(n, id) && n.number == leaving
      ensures suits <==> forall n <- nodes | IsLive(n, id) ::
                           n.host != h && (n.number != leaving ==> DomainOf(hosts, n.host) != DomainOf(hosts, h))
    {
      suits, present := true, false;
      var i := 0;
      while i < |nodes|
        invariant i <= |nodes|
        invariant present <==> exists n <- nodes[..i] :: IsLive(n, id) && n.number == leaving
        invariant suits <==> forall n <- nodes[..i] | IsLive(n, id) ::
                               n.host != h && (n.number != leaving ==> DomainOf(hosts, n.host) != DomainOf(hosts, h))
      {
        var n := nodes[i];
        assert nodes[..i + 1] == nodes[..i] + [n];
        if IsLive(n, id) {
          if n.number == leaving {
            present := true;
          }
          if n.host == h || (n.number != leaving && DomainOf(hosts, n.host) == DomainOf(hosts, h)) {
            suits := false;
          }
        }
        i := i + 1;
      }
      assert nodes[..i] == nodes;
    }

    method GreatestLive(id: DbId) returns (top: nat)
      ensures top == Greatest(nodes, id)
    {
      top := 0;
      var i := 0;
      while i < |nodes|
        invariant i <= |nodes| && top == Greatest(nodes[..i], id)
      {
        assert nodes[..i + 1][..i] == nodes[..i];
        if IsLive(nodes[i], id) && top < nodes[i].number {
          top := nodes[i].number;
        }
        i := i + 1;
      }
      assert nodes[..i] == nodes;
    }

    method StartReplacement(id: DbId, leaving: nat, h: HostId)
      modifies this`nodes, this`dbs
      ensures State() == Next(old(State()), StartReplace(id, leaving, h))
    {
      if id !in dbs || !dbs[id].ha || dbs[id].stage != Serving || h !in hosts {
        return;
      }
      var suits, present := HostSuits(id, leaving, h);
      if !suits || !present || !HasRoom(config, Load(State(), h), dbs[id].resources) {
        return;
      }
      assert CanReplace(State(), id, leaving, h);
      var top := GreatestLive(id);
      var port := AddNode(id, top + 1, h);
      if port.Some? {
        dbs := dbs[id := dbs[id].(stage := Replacing(leaving, top + 1, false))];
      }
    }

    /** Look at the hosts of live nodes in turn until one has no room for the difference. */
    method Resize(id: DbId, to: Resources) returns (ok: bool)
      modifies this`dbs
      ensures ok == ResizeAllowed(old(State()), id, to)
      ensures State() == Next(old(State()), Event.Resize(id, to))
    {
      if id !in dbs || dbs[id].stage != Serving || !Positive(to) || to.storage < dbs[id].resources.storage {
        return false;
      }
      var growth := Growth(dbs[id].resources, to);
      var all := LiveHosts(nodes, id);
      var todo := all;
      while todo != {}
        invariant todo <= all
        invariant forall h <- all - todo ::
                    h in hosts && Free(config, Load(State(), h)).Some? && Fits(Free(config, Load(State(), h)).value, growth)
        decreases todo
      {
        var h :| h in todo;
        if h !in hosts {
          return false;
        }
        var free := Free(config, Load(State(), h));
        if free.None? || !Fits(free.value, growth) {
          return false;
        }
        todo := todo - {h};
      }
      dbs := dbs[id := dbs[id].(resources := to)];
      return true;
    }
  }
}
