/**
The fleet: which hosts run which nodes of which databases, and on which ports. Each
event is one transaction of the API or of a step of an operation.
*/
module Fleet {
  import opened Common
  import opened Scheduler

  type HostId = string
  type DbId = nat

  datatype HostInfo = HostInfo(failureDomain: Option<string>, capacity: Option<Resources>)

  /** A row of `nodes`. A node called `n7` has number 7, which is also its Raft ID. */
  datatype Node = Node(db: DbId, number: nat, host: HostId, port: int, retracted: bool)

  /** How far a database is: what its one running operation may still do to its nodes. */
  datatype Stage =
    | Creating
    | Serving
    | Replacing(leaving: nat, joining: nat, retracted: bool)
    | Deleting(retracted: bool)
    | Gone

  /** `ever` holds every number a node of the database has had. */
  datatype Db = Db(ha: bool, resources: Resources, stage: Stage, ever: set<nat>)

  datatype World = World(config: Config, hosts: map<HostId, HostInfo>, dbs: map<DbId, Db>, nodes: seq<Node>)

  datatype Event =
    | Create(id: DbId, ha: bool, resources: Resources)
    | PlaceAll(id: DbId, eligible: seq<HostId>)
    | StartReplace(id: DbId, leaving: nat, host: HostId)
    | RetractOld(id: DbId)
    | DropOld(id: DbId)
    | EndReplace(id: DbId)                     // it finished, or failed part-way
    | Resize(id: DbId, resources: Resources)
    | Delete(id: DbId)
    | RetractAll(id: DbId)
    | Finalize(id: DbId)

  const HA_NODES: nat := 3

  // ---- What a host runs ----

  const NOTHING := Resources(0.0, 0.0, 0.0)

  function Plus(a: Resources, b: Resources): Resources {
    Resources(a.vcpu + b.vcpu, a.memory + b.memory, a.storage + b.storage)
  }

  function Size(dbs: map<DbId, Db>, n: Node): Resources {
    if n.db in dbs then dbs[n.db].resources else NOTHING
  }

  /** The resources of every node on a host, one on its way out included. */
  function Used(dbs: map<DbId, Db>, nodes: seq<Node>, h: HostId): Resources {
    if nodes == [] then NOTHING
    else
      var last := nodes[|nodes| - 1];
      var rest := Used(dbs, nodes[..|nodes| - 1], h);
      if last.host == h then Plus(rest, Size(dbs, last)) else rest
  }

  function Instances(nodes: seq<Node>, h: HostId): nat {
    if nodes == [] then 0
    else Instances(nodes[..|nodes| - 1], h) + if nodes[|nodes| - 1].host == h then 1 else 0
  }

  function Load(w: World, h: HostId): Host
    requires h in w.hosts
  {
    Host(h, w.hosts[h].failureDomain, w.hosts[h].capacity, Used(w.dbs, w.nodes, h), Instances(w.nodes, h))
  }

  function DomainOf(hosts: map<HostId, HostInfo>, h: HostId): string {
    if h in hosts && hosts[h].failureDomain.Some? then hosts[h].failureDomain.value else h
  }

  // ---- A node's ports ----

  function PortsOn(nodes: seq<Node>, h: HostId): set<int> {
    set n <- nodes | n.host == h :: n.port
  }

  /** The lowest port from `p` on, in steps of a block, that is not taken. */
  function LowestFree(taken: set<int>, p: int, end: int): Option<int>
    decreases end - p
  {
    if p > end then None
    else if p in taken then LowestFree(taken, p + PORT_BLOCK, end)
    else Some(p)
  }

  function FreePort(c: Config, nodes: seq<Node>, h: HostId): Option<int> {
    LowestFree(PortsOn(nodes, h), c.portBaseStart, c.portBaseEnd)
  }

  /** Record a node on a host, or nothing if the host has no port left. */
  function AddNode(w: World, id: DbId, number: nat, h: HostId): Option<World> {
    match FreePort(w.config, w.nodes, h)
    case None => None
    case Some(port) =>
      Some(w.(nodes := w.nodes + [Node(id, number, h, port, false)],
              dbs := if id in w.dbs then w.dbs[id := w.dbs[id].(ever := w.dbs[id].ever + {number})] else w.dbs))
  }

  // ---- The events ----

  predicate Positive(r: Resources) {
    r.vcpu > 0.0 && r.memory > 0.0 && r.storage > 0.0
  }

  /** The nodes of a database that are not on their way out. */
  predicate IsLive(n: Node, id: DbId) {
    n.db == id && !n.retracted
  }

  function LiveHosts(nodes: seq<Node>, id: DbId): set<HostId> {
    set n <- nodes | IsLive(n, id) :: n.host
  }

  /** The greatest of some numbers, or zero. */
  function Greatest(numbers: seq<Node>, id: DbId): nat {
    if numbers == [] then 0
    else
      var last := numbers[|numbers| - 1];
      var rest := Greatest(numbers[..|numbers| - 1], id);
      if IsLive(last, id) && rest < last.number then last.number else rest
  }

  function Loads(w: World, eligible: seq<HostId>): seq<Host>
    requires forall h <- eligible :: h in w.hosts
  {
    seq(|eligible|, i requires 0 <= i < |eligible| => Load(w, eligible[i]))
  }

  function Chosen(w: World, id: DbId, eligible: seq<HostId>): Option<seq<Host>>
    requires id in w.dbs && forall h <- eligible :: h in w.hosts
  {
    Choose(Roomy(w.config, ByFree(w.config, Loads(w, eligible)), w.dbs[id].resources),
           if w.dbs[id].ha then HA_NODES else 1)
  }

  /** Add a node on each host in turn, numbered from `number`. None if one has no port left. */
  function AddAll(w: World, id: DbId, number: nat, hosts: seq<Host>): Option<World>
    decreases |hosts|
  {
    if hosts == [] then Some(w)
    else
      match AddNode(w, id, number, hosts[0].id)
      case None => None
      case Some(w') => AddAll(w', id, number + 1, hosts[1..])
  }

  function Staged(w: World, id: DbId, stage: Stage): World
    requires id in w.dbs
  {
    w.(dbs := w.dbs[id := w.dbs[id].(stage := stage)])
  }

  predicate CanPlace(w: World, id: DbId, eligible: seq<HostId>) {
    && id in w.dbs && w.dbs[id].stage == Creating
    && (forall h <- eligible :: h in w.hosts)
    && (forall i, j | 0 <= i < j < |eligible| :: eligible[i] != eligible[j])
  }

  function Placing(w: World, id: DbId, eligible: seq<HostId>): World
    requires CanPlace(w, id, eligible)
  {
    match Chosen(w, id, eligible)
    case None => w
    case Some(chosen) =>
      (match AddAll(w, id, 1, chosen)
       case None => w
       case Some(w') => if id in w'.dbs then Staged(w', id, Serving) else w)
  }

  /** What starting a replacement checks, of a host that is online and not draining. */
  predicate CanReplace(w: World, id: DbId, leaving: nat, h: HostId) {
    && id in w.dbs && w.dbs[id].ha && w.dbs[id].stage == Serving
    && h in w.hosts
    && (exists n <- w.nodes :: IsLive(n, id) && n.number == leaving)
    && (forall n <- w.nodes | IsLive(n, id) && n.number != leaving ::
          n.host != h && DomainOf(w.hosts, n.host) != DomainOf(w.hosts, h))
    && (forall n <- w.nodes | IsLive(n, id) :: n.host != h)
    && HasRoom(w.config, Load(w, h), w.dbs[id].resources)
  }

  function Replace(w: World, id: DbId, leaving: nat, h: HostId): World
    requires CanReplace(w, id, leaving, h)
  {
    var joining := Greatest(w.nodes, id) + 1;
    match AddNode(w, id, joining, h)
    case None => w
    case Some(w') => if id in w'.dbs then Staged(w', id, Replacing(leaving, joining, false)) else w
  }

  /** The rows of a database, or the one with a number. */
  predicate Matches(n: Node, id: DbId, number: Option<nat>) {
    n.db == id && (number.None? || n.number == number.value)
  }

  function Retracted(nodes: seq<Node>, id: DbId, number: Option<nat>): seq<Node> {
    seq(|nodes|, i requires 0 <= i < |nodes| =>
      if Matches(nodes[i], id, number) then nodes[i].(retracted := true) else nodes[i])
  }

  /** The rows left once those that match are deleted. */
  function Without(nodes: seq<Node>, id: DbId, number: Option<nat>): seq<Node> {
    if nodes == [] then []
    else
      var last := nodes[|nodes| - 1];
      var rest := Without(nodes[..|nodes| - 1], id, number);
      if Matches(last, id, number) then rest else rest + [last]
  }

  function AtLeastZero(x: real): real {
    if x < 0.0 then 0.0 else x
  }

  function Growth(from: Resources, to: Resources): Resources {
    Resources(AtLeastZero(to.vcpu - from.vcpu), AtLeastZero(to.memory - from.memory), to.storage - from.storage)
  }

  /** What resizing checks: that every host of a node not on its way out has room for the difference. */
  predicate ResizeAllowed(w: World, id: DbId, to: Resources) {
    && id in w.dbs && w.dbs[id].stage == Serving
    && Positive(to)
    && w.dbs[id].resources.storage <= to.storage
    && forall h <- LiveHosts(w.nodes, id) ::
         && h in w.hosts && Free(w.config, Load(w, h)).Some?
         && Fits(Free(w.config, Load(w, h)).value, Growth(w.dbs[id].resources, to))
  }

  function Resized(w: World, id: DbId, to: Resources): World
    requires id in w.dbs
  {
    w.(dbs := w.dbs[id := w.dbs[id].(resources := to)])
  }

  function Next(w: World, e: Event): World {
    match e
    case Create(id, ha, resources) =>
      if id !in w.dbs && Positive(resources) then w.(dbs := w.dbs[id := Db(ha, resources, Creating, {})]) else w
    case PlaceAll(id, eligible) => if CanPlace(w, id, eligible) then Placing(w, id, eligible) else w
    case StartReplace(id, leaving, h) => if CanReplace(w, id, leaving, h) then Replace(w, id, leaving, h) else w
    case RetractOld(id) =>
      if id in w.dbs && w.dbs[id].stage.Replacing? then
        var leaving, joining := w.dbs[id].stage.leaving, w.dbs[id].stage.joining;
        Staged(w.(nodes := Retracted(w.nodes, id, Some(leaving))), id, Replacing(leaving, joining, true))
      else w
    case DropOld(id) =>
      if id in w.dbs && w.dbs[id].stage.Replacing? && w.dbs[id].stage.retracted then
        w.(nodes := Without(w.nodes, id, Some(w.dbs[id].stage.leaving)))
      else w
    case EndReplace(id) => if id in w.dbs && w.dbs[id].stage.Replacing? then Staged(w, id, Serving) else w
    case Resize(id, to) => if ResizeAllowed(w, id, to) then Resized(w, id, to) else w
    case Delete(id) =>
      if id in w.dbs && !w.dbs[id].stage.Deleting? && !w.dbs[id].stage.Gone? then Staged(w, id, Deleting(false)) else w
    case RetractAll(id) =>
      if id in w.dbs && w.dbs[id].stage.Deleting? then
        Staged(w.(nodes := Retracted(w.nodes, id, None)), id, Deleting(true))
      else w
    case Finalize(id) =>
      if id in w.dbs && w.dbs[id].stage == Deleting(true) then
        Staged(w.(nodes := Without(w.nodes, id, None)), id, Gone)
      else w
  }

  function Run(w: World, es: seq<Event>): World {
    if es == [] then w else Next(Run(w, es[..|es| - 1]), es[|es| - 1])
  }

  /** A fleet of hosts with nothing on them yet. */
  predicate Empty(w: World) {
    ValidConfig(w.config) && w.dbs == map[] && w.nodes == []
  }

  // ---- Facts the invariants share ----

  /** The hosts chosen are as they are now, have room, and are in separate domains. */
  lemma ChosenHosts(w: World, id: DbId, eligible: seq<HostId>)
    requires CanPlace(w, id, eligible) && Chosen(w, id, eligible).Some?
    ensures var chosen := Chosen(w, id, eligible).value;
            && |chosen| == (if w.dbs[id].ha then HA_NODES else 1)
            && DistinctDomains(chosen)
            && (forall h <- chosen :: h.id in eligible && h.id in w.hosts && h == Load(w, h.id)
                                      && HasRoom(w.config, h, w.dbs[id].resources))
            && (forall i, j | 0 <= i < j < |chosen| :: chosen[i].id != chosen[j].id)
  {
    var loads := Loads(w, eligible);
    ByFreeSorts(w.config, loads);
    ChoiceIsSelection(w.config, loads, ByFree(w.config, loads), if w.dbs[id].ha then HA_NODES else 1, w.dbs[id].resources);
    var chosen := Chosen(w, id, eligible).value;
    assert forall h <- loads :: h == Load(w, h.id) && h.id in eligible;
    forall i, j | 0 <= i < j < |chosen|
      ensures chosen[i].id != chosen[j].id
    {
      assert chosen[i] in chosen && chosen[j] in chosen;
      assert Domain(chosen[i]) != Domain(chosen[j]);
    }
  }

  lemma {:induction false} WithoutHolds(nodes: seq<Node>, id: DbId, number: Option<nat>)
    ensures forall n :: n in Without(nodes, id, number) <==> n in nodes && !Matches(n, id, number)
  {
    if nodes != [] {
      var m := |nodes| - 1;
      assert nodes == nodes[..m] + [nodes[m]];
      WithoutHolds(nodes[..m], id, number);
    }
  }
}
