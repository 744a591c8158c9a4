/** The life of a database in the fleet: when each request is taken, and what rows it leaves. */
module FleetLife {
  import opened Common
  import opened Scheduler
  import opened Fleet
  import Members = FleetMembers
  import Ports = FleetPorts
  import Overcommit = FleetOvercommit

  // ---- Placement ----

  /** As many new rows as hosts, numbered from one, each on its host. */
  predicate PlacedOn(before: seq<Node>, after: seq<Node>, id: DbId, hosts: seq<Host>) {
    && |after| == |before| + |hosts| && before <= after
    && forall i | 0 <= i < |hosts| ::
         var n := after[|before| + i];
         n.db == id && n.number == i + 1 && n.host == hosts[i].id && !n.retracted
  }

  /** A choice of hosts for a database, no worse place by place than any other. */
  ghost predicate BestChoice(w: World, id: DbId, eligible: seq<HostId>, count: nat, chosen: seq<Host>)
    requires CanPlace(w, id, eligible)
  {
    && Selection(w.config, Loads(w, eligible), count, w.dbs[id].resources, chosen) && MostFirst(w.config, chosen)
    && forall s | Selection(w.config, Loads(w, eligible), count, w.dbs[id].resources, s) && MostFirst(w.config, s) ::
         Dominates(w.config, chosen, s)
  }

  lemma ChosenIsBest(w: World, id: DbId, eligible: seq<HostId>)
    requires CanPlace(w, id, eligible)
    ensures var count := if w.dbs[id].ha then 3 else 1;
            && ((exists s :: Selection(w.config, Loads(w, eligible), count, w.dbs[id].resources, s))
                <==> Chosen(w, id, eligible).Some?)
            && (Chosen(w, id, eligible).Some? ==> BestChoice(w, id, eligible, count, Chosen(w, id, eligible).value))
  {
    var c, loads, count, request := w.config, Loads(w, eligible), if w.dbs[id].ha then HA_NODES else 1, w.dbs[id].resources;
    var sorted := ByFree(c, loads);
    ByFreeSorts(c, loads);
    forall s | Selection(c, loads, count, request, s)
      ensures Choose(Roomy(c, sorted, request), count).Some?
      ensures MostFirst(c, s) ==> Dominates(c, Choose(Roomy(c, sorted, request), count).value, s)
    {
      ChoiceIsBest(c, loads, sorted, count, request, s);
    }
    if Chosen(w, id, eligible).Some? {
      ChoiceIsSelection(c, loads, sorted, count, request);
      ChoiceIsOrdered(c, sorted, count, request);
    }
  }

  /**
  After every run, a placement goes through exactly when there is a choice of three hosts for a
  database of three nodes, or one. It then adds a node on each host of the best choice, and changes
  nothing otherwise.
  */
  lemma PlacedExactlyWhen(w: World, es: seq<Event>, id: DbId, eligible: seq<HostId>)
    requires Empty(w) && CanPlace(Run(w, es), id, eligible)
    ensures var t := Run(w, es);
            var t' := Next(t, PlaceAll(id, eligible));
            var count := if t.dbs[id].ha then 3 else 1;
            && id in t'.dbs
            && (t'.dbs[id].stage == Serving
                <==> exists s :: Selection(t.config, Loads(t, eligible), count, t.dbs[id].resources, s))
            && (t'.dbs[id].stage == Serving ==>
                  exists chosen :: BestChoice(t, id, eligible, count, chosen) && PlacedOn(t.nodes, t'.nodes, id, chosen))
            && (t'.dbs[id].stage != Serving ==> t' == t)
  {
    var t := Run(w, es);
    Ports.RunKeepsPorts(w, es);
    ChosenIsBest(t, id, eligible);
    if Chosen(t, id, eligible).Some? {
      var w', rows, chosen := Overcommit.PlacingAdds(t, id, eligible);
      assert PlacedOn(t.nodes, Next(t, PlaceAll(id, eligible)).nodes, id, chosen);
    }
  }

  // ---- Replacement ----

  /** The failure domain configured for a host, or the host itself where none is. */
  predicate ShareDomain(hosts: map<HostId, HostInfo>, a: HostId, b: HostId) {
    if a in hosts && b in hosts && hosts[a].failureDomain.Some? && hosts[b].failureDomain.Some? then
      hosts[a].failureDomain == hosts[b].failureDomain
    else if a in hosts && hosts[a].failureDomain.Some? then hosts[a].failureDomain.value == b
    else if b in hosts && hosts[b].failureDomain.Some? then a == hosts[b].failureDomain.value
    else a == b
  }

  /**
  After every run, a replacement is taken exactly when the database has three nodes and nothing else
  going on, the node that leaves is live, and the wanted host has room, runs no live node of the database
  and shares a failure domain with none that stays.
  */
  lemma ReplacementTakenExactlyWhen(w: World, es: seq<Event>, id: DbId, leaving: nat, h: HostId)
    requires Empty(w)
    ensures var t := Run(w, es);
            Next(t, StartReplace(id, leaving, h)) != t
            <==> && id in t.dbs && t.dbs[id].ha && t.dbs[id].stage == Serving
                 && h in t.hosts && HasRoom(t.config, Load(t, h), t.dbs[id].resources)
                 && (exists n <- t.nodes :: n.db == id && !n.retracted && n.number == leaving)
                 && (forall n <- t.nodes | n.db == id && !n.retracted :: n.host != h)
                 && (forall n <- t.nodes | n.db == id && !n.retracted && n.number != leaving :: !ShareDomain(t.hosts, n.host, h))
  {
    Ports.PortsNeverRunOut(w, es, id);
    var t := Run(w, es);
    assert forall n <- t.nodes :: ShareDomain(t.hosts, n.host, h) <==> DomainOf(t.hosts, n.host) == DomainOf(t.hosts, h);
  }

  function Replaced(w: World, id: DbId, leaving: nat, h: HostId): World {
    Next(Next(Next(Next(w, StartReplace(id, leaving, h)), RetractOld(id)), DropOld(id)), EndReplace(id))
  }

  /** The rows are those from before without the node that left, and one new live node on the host. */
  ghost predicate Swapped(before: seq<Node>, after: seq<Node>, id: DbId, leaving: nat, joined: Node) {
    && joined.db == id && !joined.retracted && joined.number != leaving
    && forall n :: n in after <==> n == joined || (n in before && !(n.db == id && n.number == leaving))
  }

  /** A replacement that runs to its end takes out the row of the node that leaves, and puts in one on the wanted host. */
  lemma ReplacementSwaps(w: World, es: seq<Event>, id: DbId, leaving: nat, h: HostId) returns (joined: Node)
    requires Empty(w) && CanReplace(Run(w, es), id, leaving, h)
    ensures var t := Run(w, es);
            var t' := Replaced(t, id, leaving, h);
            && joined.host == h && Swapped(t.nodes, t'.nodes, id, leaving, joined)
            && id in t'.dbs && t'.dbs[id].stage == Serving
            && (forall n <- t.nodes | n.db == id :: n.number < joined.number)
  {
    var t := Run(w, es);
    Ports.PortsNeverRunOut(w, es, id);
    Members.RunKeepsInv(w, es);
    Members.NumberIsNew(t, id);
    Members.RowsBelow(t, id, Greatest(t.nodes, id) + 1);
    joined := Members.ReplaceIsJoined(t, id, leaving, h);
    SwapsRows(t, Members.Joined(t, id, leaving, joined), id, leaving, joined);
  }

  lemma SwapsRows(w: World, t: World, id: DbId, leaving: nat, joined: Node)
    requires id in t.dbs && t.dbs[id].stage == Replacing(leaving, joined.number, false)
    requires t.nodes == w.nodes + [joined] && joined.db == id && !joined.retracted && joined.number != leaving
    ensures var t' := Next(Next(Next(t, RetractOld(id)), DropOld(id)), EndReplace(id));
            && Swapped(w.nodes, t'.nodes, id, leaving, joined)
            && id in t'.dbs && t'.dbs[id].stage == Serving
  {
    RowsLeft(t.nodes, id, Some(leaving));
  }

  // ---- Deletion ----

  function Deleted(w: World, id: DbId): World {
    Next(Next(Next(w, Delete(id)), RetractAll(id)), Finalize(id))
  }

  /** A deletion that runs to its end leaves no row of the database, every row of the others, and nothing to delete again. */
  lemma DeletionLeavesNothing(w: World, id: DbId)
    requires id in w.dbs && !w.dbs[id].stage.Deleting? && !w.dbs[id].stage.Gone?
    ensures var w' := Deleted(w, id);
            && (forall n :: n in w'.nodes <==> n in w.nodes && n.db != id)
            && w'.dbs == w.dbs[id := w.dbs[id].(stage := Gone)]
            && Next(w', Delete(id)) == w'
  {
    RowsLeft(w.nodes, id, None);
    assert Deleted(w, id).nodes == Without(Retracted(w.nodes, id, None), id, None);
  }

  /** Marking rows and then deleting those marked leaves the others. */
  lemma RowsLeft(nodes: seq<Node>, id: DbId, number: Option<nat>)
    ensures forall n :: n in Without(Retracted(nodes, id, number), id, number) <==> n in nodes && !Matches(n, id, number)
  {
    Members.RetractedHolds(nodes, id, number);
    WithoutHolds(Retracted(nodes, id, number), id, number);
  }

  /** Rows are deleted only once they are marked, and asking for a deletion again changes nothing. */
  lemma DeletionIsInOrder(w: World, id: DbId)
    requires id in w.dbs && !w.dbs[id].stage.Deleting? && !w.dbs[id].stage.Gone?
    ensures var asked := Next(w, Delete(id));
            var marked := Next(asked, RetractAll(id));
            && asked.nodes == w.nodes && Next(asked, Finalize(id)) == asked && Next(asked, Delete(id)) == asked
            && (forall n <- marked.nodes | n.db == id :: n.retracted) && Next(marked, Delete(id)) == marked
  {
  }

  // ---- Resizing ----

  /** The host fits what it runs, and would with one node of the database resized. Disk is never given back. */
  predicate RoomToResize(w: World, h: HostId, from: Resources, to: Resources) {
    && h in w.hosts && w.hosts[h].capacity.Some?
    && var a, used := Allocatable(w.config, w.hosts[h].capacity.value), Used(w.dbs, w.nodes, h);
    && used.vcpu <= a.vcpu + 0.000000001 && used.vcpu - from.vcpu + to.vcpu <= a.vcpu + 0.000000001
    && used.memory <= a.memory + 0.000000001 && used.memory - from.memory + to.memory <= a.memory + 0.000000001
    && used.storage - from.storage + to.storage <= a.storage + 0.000000001
  }

  /**
  A resize is taken exactly when the database has nothing else going on, the size is positive with no
  less disk, and the host of every live node has room for it. It changes the size and nothing else.
  */
  lemma ResizeTakenExactlyWhen(w: World, id: DbId, to: Resources)
    ensures Next(w, Resize(id, to))
         == if && id in w.dbs && w.dbs[id].stage == Serving
               && to.vcpu > 0.0 && to.memory > 0.0 && to.storage > 0.0 && to.storage >= w.dbs[id].resources.storage
               && forall n <- w.nodes | n.db == id && !n.retracted :: RoomToResize(w, n.host, w.dbs[id].resources, to)
            then w.(dbs := w.dbs[id := w.dbs[id].(resources := to)])
            else w
  {
    if id in w.dbs {
      forall n <- w.nodes | n.db == id && !n.retracted
        ensures n.host in LiveHosts(w.nodes, id)
      {
        assert IsLive(n, id);
      }
      forall h <- LiveHosts(w.nodes, id)
        ensures exists n <- w.nodes :: n.db == id && !n.retracted && n.host == h
      {
        var n :| n in w.nodes && IsLive(n, id) && n.host == h;
      }
    }
  }
}
