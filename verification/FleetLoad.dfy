/**
Room: whatever is placed, replaced, removed and resized, a host's use stays within
what it can give, plus one rounding allowance that never adds up.
*/
module FleetLoad {
  import opened Common
  import opened Scheduler
  import opened Fleet
  import Members = FleetMembers

  predicate AtMost(a: Resources, b: Resources) {
    a.vcpu <= b.vcpu && a.memory <= b.memory && a.storage <= b.storage
  }

  const SLACK := Resources(EPSILON, EPSILON, EPSILON)

  /** A host with anything on it has said how large it is, and uses no more than it can give and one allowance. */
  predicate Within(w: World, h: HostId)
    requires h in w.hosts
  {
    Instances(w.nodes, h) > 0 ==>
      && w.hosts[h].capacity.Some?
      && AtMost(Used(w.dbs, w.nodes, h), Plus(Allocatable(w.config, w.hosts[h].capacity.value), SLACK))
  }

  predicate AllWithin(w: World) {
    forall h <- w.hosts :: Within(w, h)
  }

  // ---- How each change moves what a host uses ----

  predicate Sized(dbs: map<DbId, Db>) {
    forall id <- dbs :: Positive(dbs[id].resources)
  }

  lemma {:induction false} UsedDepends(dbs: map<DbId, Db>, dbs': map<DbId, Db>, nodes: seq<Node>, h: HostId)
    requires forall n <- nodes :: Size(dbs, n) == Size(dbs', n)
    ensures Used(dbs, nodes, h) == Used(dbs', nodes, h)
  {
    if nodes != [] {
      UsedDepends(dbs, dbs', nodes[..|nodes| - 1], h);
      assert nodes[|nodes| - 1] in nodes;
    }
  }

  /** Only resources matter to what is used. */
  predicate SameSizes(dbs: map<DbId, Db>, dbs': map<DbId, Db>) {
    dbs.Keys == dbs'.Keys && forall id <- dbs :: dbs[id].resources == dbs'[id].resources
  }

  lemma UsedSameSizes(dbs: map<DbId, Db>, dbs': map<DbId, Db>, nodes: seq<Node>, h: HostId)
    requires SameSizes(dbs, dbs')
    ensures Used(dbs, nodes, h) == Used(dbs', nodes, h)
  {
    UsedDepends(dbs, dbs', nodes, h);
  }

  lemma {:induction false} RetractedUsesTheSame(dbs: map<DbId, Db>, nodes: seq<Node>, id: DbId, number: Option<nat>, h: HostId)
    ensures Used(dbs, Retracted(nodes, id, number), h) == Used(dbs, nodes, h)
    ensures Instances(Retracted(nodes, id, number), h) == Instances(nodes, h)
  {
    if nodes != [] {
      var m := |nodes| - 1;
      RetractedUsesTheSame(dbs, nodes[..m], id, number, h);
      assert Retracted(nodes, id, number)[..m] == Retracted(nodes[..m], id, number);
    }
  }

  lemma UsedSnoc(dbs: map<DbId, Db>, nodes: seq<Node>, n: Node, h: HostId)
    ensures Used(dbs, nodes + [n], h) == if n.host == h then Plus(Used(dbs, nodes, h), Size(dbs, n)) else Used(dbs, nodes, h)
    ensures Instances(nodes + [n], h) == Instances(nodes, h) + if n.host == h then 1 else 0
  {
    assert (nodes + [n])[..|nodes|] == nodes;
  }

  lemma {:induction false} WithoutUsesLess(dbs: map<DbId, Db>, nodes: seq<Node>, id: DbId, number: Option<nat>, h: HostId)
    requires Sized(dbs)
    ensures AtMost(Used(dbs, Without(nodes, id, number), h), Used(dbs, nodes, h))
    ensures Instances(Without(nodes, id, number), h) <= Instances(nodes, h)
  {
    if nodes != [] {
      var m := |nodes| - 1;
      WithoutUsesLess(dbs, nodes[..m], id, number, h);
      assert nodes == nodes[..m] + [nodes[m]];
      UsedSnoc(dbs, nodes[..m], nodes[m], h);
      UsedSnoc(dbs, Without(nodes[..m], id, number), nodes[m], h);
    }
  }

  /** Adding a node adds its size to its host and to no other. */
  lemma AddUses(w: World, id: DbId, number: nat, on: HostId, h: HostId)
    requires id in w.dbs && AddNode(w, id, number, on).Some?
    ensures var w' := AddNode(w, id, number, on).value;
            && SameSizes(w.dbs, w'.dbs)
            && Used(w'.dbs, w'.nodes, h) == (if h == on then Plus(Used(w.dbs, w.nodes, h), w.dbs[id].resources)
                                             else Used(w.dbs, w.nodes, h))
            && Instances(w'.nodes, h) == Instances(w.nodes, h) + if h == on then 1 else 0
  {
    var w' := AddNode(w, id, number, on).value;
    assert w'.nodes[..|w.nodes|] == w.nodes;
    UsedSameSizes(w.dbs, w'.dbs, w.nodes, h);
  }

  predicate Inv(w: World) {
    Sized(w.dbs) && AllWithin(w)
  }

  /** A node goes where there is room for it. */
  lemma AddKeepsInv(w: World, id: DbId, number: nat, on: HostId)
    requires Inv(w) && id in w.dbs && on in w.hosts && AddNode(w, id, number, on).Some?
    requires HasRoom(w.config, Load(w, on), w.dbs[id].resources)
    ensures Inv(AddNode(w, id, number, on).value)
  {
    var w' := AddNode(w, id, number, on).value;
    forall h <- w'.hosts
      ensures Within(w', h)
    {
      AddUses(w, id, number, on, h);
    }
  }

  /** Hosts of their own: adding to one leaves the others as they were. */
  lemma {:induction false} AddAllKeepsInv(w: World, id: DbId, number: nat, hosts: seq<Host>)
    requires Inv(w) && id in w.dbs && AddAll(w, id, number, hosts).Some?
    requires forall i, j | 0 <= i < j < |hosts| :: hosts[i].id != hosts[j].id
    requires forall h <- hosts :: h.id in w.hosts && HasRoom(w.config, Load(w, h.id), w.dbs[id].resources)
    ensures Inv(AddAll(w, id, number, hosts).value)
    decreases |hosts|
  {
    if hosts != [] {
      var on := hosts[0].id;
      AddKeepsInv(w, id, number, on);
      var w' := AddNode(w, id, number, on).value;
      forall h <- hosts[1..]
        ensures h.id in w'.hosts && HasRoom(w'.config, Load(w', h.id), w'.dbs[id].resources)
      {
        AddUses(w, id, number, on, h.id);
      }
      AddAllKeepsInv(w', id, number + 1, hosts[1..]);
    }
  }

  // ---- Resizing ----

  /** How many nodes of a database a host runs, on their way out or not. */
  function CountOf(nodes: seq<Node>, id: DbId, h: HostId): nat {
    if nodes == [] then 0
    else
      var last := nodes[|nodes| - 1];
      CountOf(nodes[..|nodes| - 1], id, h) + if last.db == id && last.host == h then 1 else 0
  }

  function Times(k: nat, r: Resources): Resources {
    if k == 0 then NOTHING else Plus(Times(k - 1, r), r)
  }

  lemma PlusRegroups(used: Resources, more: Resources, before: Resources, to: Resources)
    ensures Plus(Plus(used, more), to) == Plus(Plus(used, before), Plus(more, Minus(to, before)))
    ensures Plus(Plus(used, more), before) == Plus(Plus(used, before), more)
  {
  }

  /** Resizing adds the difference to a host once for each node of the database on it. */
  lemma {:induction false} ResizedUses(dbs: map<DbId, Db>, dbs': map<DbId, Db>, nodes: seq<Node>, id: DbId, h: HostId)
    requires id in dbs && id in dbs' && forall n <- nodes | n.db != id :: Size(dbs', n) == Size(dbs, n)
    ensures Used(dbs', nodes, h)
         == Plus(Used(dbs, nodes, h), Times(CountOf(nodes, id, h), Minus(dbs'[id].resources, dbs[id].resources)))
  {
    if nodes != [] {
      var last := nodes[|nodes| - 1];
      var rest := nodes[..|nodes| - 1];
      ResizedUses(dbs, dbs', rest, id, h);
      var more := Times(CountOf(rest, id, h), Minus(dbs'[id].resources, dbs[id].resources));
      assert last in nodes;
      PlusRegroups(Used(dbs, rest, h), more, Size(dbs, last), Size(dbs', last));
    }
  }

  predicate RetractedOn(nodes: seq<Node>, id: DbId, h: HostId) {
    exists n <- nodes :: n.db == id && n.retracted && n.host == h
  }

  /** Every host of a node on its way out has room for the difference, once for each node of the database on it. */
  predicate Covered(w: World, id: DbId, to: Resources) {
    id in w.dbs && forall h <- w.hosts | RetractedOn(w.nodes, id, h) ::
      && Free(w.config, Load(w, h)).Some?
      && Fits(Free(w.config, Load(w, h)).value, Times(CountOf(w.nodes, id, h), Minus(to, w.dbs[id].resources)))
  }

  /** A host with no node of the database on its way out runs at most one of its nodes. */
  lemma {:induction false} AtMostOne(nodes: seq<Node>, id: DbId, h: HostId)
    requires Members.LiveApart(nodes, id) && !RetractedOn(nodes, id, h)
    ensures CountOf(nodes, id, h) <= 1
    ensures CountOf(nodes, id, h) == 1 <==> h in LiveHosts(nodes, id)
  {
    if nodes != [] {
      var m := |nodes| - 1;
      assert nodes == nodes[..m] + [nodes[m]];
      assert forall n <- nodes[..m] :: n in nodes;
      AtMostOne(nodes[..m], id, h);
      assert nodes[m] in nodes;
      assert LiveHosts(nodes, id) == LiveHosts(nodes[..m], id) + if IsLive(nodes[m], id) then {nodes[m].host} else {};
    }
  }

  lemma InstanceCounted(nodes: seq<Node>, h: HostId, n: Node)
    requires n in nodes && n.host == h
    ensures Instances(nodes, h) > 0
  {
    var m := |nodes| - 1;
    if nodes[m] != n {
      assert nodes == nodes[..m] + [nodes[m]];
      InstanceCounted(nodes[..m], h, n);
    }
  }

  /** After a resize, a host is within its means exactly when it had room for the difference at each node. */
  lemma WithinAfterResize(w: World, id: DbId, to: Resources, h: HostId)
    requires id in w.dbs && h in w.hosts && w.hosts[h].capacity.Some? && Instances(w.nodes, h) > 0
    ensures Within(Resized(w, id, to), h)
       <==> Fits(Free(w.config, Load(w, h)).value, Times(CountOf(w.nodes, id, h), Minus(to, w.dbs[id].resources)))
  {
    ResizedUses(w.dbs, Resized(w, id, to).dbs, w.nodes, id, h);
  }

  lemma OnceIsOnce(r: Resources)
    ensures Times(0, r) == NOTHING && Times(1, r) == r
  {
    assert Times(1, r) == Plus(Times(0, r), r);
  }

  /** What resizing checks is enough for a host with no node on its way out. */
  lemma CheckedHostIsWithin(w: World, id: DbId, to: Resources, h: HostId)
    requires Inv(w) && Members.LiveApart(w.nodes, id) && ResizeAllowed(w, id, to)
    requires h in w.hosts && !RetractedOn(w.nodes, id, h)
    ensures Within(Resized(w, id, to), h)
  {
    AtMostOne(w.nodes, id, h);
    OnceIsOnce(Minus(to, w.dbs[id].resources));
    assert Within(w, h);
    if Instances(w.nodes, h) > 0 {
      WithinAfterResize(w, id, to, h);
    }
  }

  /**
  Resizing checks hosts of live nodes only, once each. With every host within its means
  before, all are within them after exactly when the hosts of nodes on their way out had room too.
  */
  lemma ResizeIsSafeExactlyWhen(w: World, id: DbId, to: Resources)
    requires Inv(w) && Members.LiveApart(w.nodes, id) && ResizeAllowed(w, id, to)
    ensures AllWithin(Resized(w, id, to)) <==> Covered(w, id, to)
  {
    forall h <- w.hosts
      ensures if RetractedOn(w.nodes, id, h) then
                && Free(w.config, Load(w, h)).Some?
                && (Within(Resized(w, id, to), h)
                    <==> Fits(Free(w.config, Load(w, h)).value, Times(CountOf(w.nodes, id, h), Minus(to, w.dbs[id].resources))))
              else Within(Resized(w, id, to), h)
    {
      if RetractedOn(w.nodes, id, h) {
        assert Within(w, h);
        var n :| n in w.nodes && n.db == id && n.retracted && n.host == h;
        InstanceCounted(w.nodes, h, n);
        WithinAfterResize(w, id, to, h);
      } else {
        CheckedHostIsWithin(w, id, to, h);
      }
    }
  }

  lemma NoneLeavingIsCovered(w: World, id: DbId, to: Resources)
    requires id in w.dbs && forall n <- w.nodes | n.db == id :: !n.retracted
    ensures Covered(w, id, to)
  {
  }

  // ---- Over every run ----

  lemma SameSizesKeepsInv(w: World, w': World)
    requires Inv(w) && w'.config == w.config && w'.hosts == w.hosts && w'.nodes == w.nodes && SameSizes(w.dbs, w'.dbs)
    ensures Inv(w')
  {
    forall h <- w'.hosts
      ensures Within(w', h)
    {
      assert Within(w, h);
      UsedSameSizes(w.dbs, w'.dbs, w.nodes, h);
    }
  }

  lemma RetractKeepsInv(w: World, id: DbId, number: Option<nat>, stage: Stage)
    requires Inv(w) && id in w.dbs
    ensures Inv(Staged(w.(nodes := Retracted(w.nodes, id, number)), id, stage))
  {
    var w' := w.(nodes := Retracted(w.nodes, id, number));
    forall h <- w'.hosts
      ensures Within(w', h)
    {
      assert Within(w, h);
      RetractedUsesTheSame(w.dbs, w.nodes, id, number, h);
    }
    SameSizesKeepsInv(w', Staged(w', id, stage));
  }

  lemma WithoutKeepsInv(w: World, id: DbId, number: Option<nat>)
    requires Inv(w)
    ensures Inv(w.(nodes := Without(w.nodes, id, number)))
  {
    var w' := w.(nodes := Without(w.nodes, id, number));
    forall h <- w'.hosts
      ensures Within(w', h)
    {
      assert Within(w, h);
      WithoutUsesLess(w.dbs, w.nodes, id, number, h);
    }
  }

  lemma CreateKeepsInv(w: World, id: DbId, d: Db)
    requires Inv(w) && Members.Inv(w) && id !in w.dbs && Positive(d.resources)
    ensures Inv(w.(dbs := w.dbs[id := d]))
  {
    var w' := w.(dbs := w.dbs[id := d]);
    forall h <- w'.hosts
      ensures Within(w', h)
    {
      assert Within(w, h);
      UsedDepends(w.dbs, w'.dbs, w.nodes, h);
    }
  }

  lemma PlaceKeepsInv(w: World, id: DbId, eligible: seq<HostId>)
    requires Inv(w) && CanPlace(w, id, eligible)
    ensures Inv(Placing(w, id, eligible))
  {
    var chosen := Chosen(w, id, eligible);
    if chosen.Some? && AddAll(w, id, 1, chosen.value).Some? {
      ChosenHosts(w, id, eligible);
      AddAllKeepsInv(w, id, 1, chosen.value);
      var w' := AddAll(w, id, 1, chosen.value).value;
      if id in w'.dbs {
        SameSizesKeepsInv(w', Staged(w', id, Serving));
      }
    }
  }

  lemma ReplaceKeepsInv(w: World, id: DbId, leaving: nat, h: HostId)
    requires Inv(w) && CanReplace(w, id, leaving, h)
    ensures Inv(Replace(w, id, leaving, h))
  {
    var joining := Greatest(w.nodes, id) + 1;
    if AddNode(w, id, joining, h).Some? {
      AddKeepsInv(w, id, joining, h);
      var w' := AddNode(w, id, joining, h).value;
      SameSizesKeepsInv(w', Staged(w', id, Replacing(leaving, joining, false)));
    }
  }

  lemma ResizeKeepsInv(w: World, id: DbId, to: Resources)
    requires Inv(w) && Members.Inv(w) && ResizeAllowed(w, id, to) && Covered(w, id, to)
    ensures Inv(Resized(w, id, to))
  {
    ResizeIsSafeExactlyWhen(w, id, to);
  }

  /** The steps of an operation that end nodes. */
  lemma EndingKeepsInv(w: World, e: Event)
    requires Inv(w) && (e.RetractOld? || e.RetractAll? || e.DropOld? || e.Finalize?)
    ensures Inv(Next(w, e))
  {
    if e.id in w.dbs {
      var stage := w.dbs[e.id].stage;
      match e
      case RetractOld(id) =>
        if stage.Replacing? {
          RetractKeepsInv(w, id, Some(stage.leaving), Replacing(stage.leaving, stage.joining, true));
        }
      case RetractAll(id) => RetractKeepsInv(w, id, None, Deleting(true));
      case DropOld(id) =>
        if stage.Replacing? {
          WithoutKeepsInv(w, id, Some(stage.leaving));
        }
      case Finalize(id) =>
        WithoutKeepsInv(w, id, None);
        var w' := w.(nodes := Without(w.nodes, id, None));
        SameSizesKeepsInv(w', Staged(w', id, Gone));
    }
  }

  lemma StepKeepsInv(w: World, e: Event)
    requires Inv(w) && Members.Inv(w) && (e.Resize? && ResizeAllowed(w, e.id, e.resources) ==> Covered(w, e.id, e.resources))
    ensures Inv(Next(w, e))
  {
    match e
    case Create(id, ha, resources) =>
      if id !in w.dbs && Positive(resources) {
        CreateKeepsInv(w, id, Db(ha, resources, Creating, {}));
      }
    case PlaceAll(id, eligible) =>
      if CanPlace(w, id, eligible) {
        PlaceKeepsInv(w, id, eligible);
      }
    case StartReplace(id, leaving, h) =>
      if CanReplace(w, id, leaving, h) {
        ReplaceKeepsInv(w, id, leaving, h);
      }
    case Resize(id, to) =>
      if ResizeAllowed(w, id, to) {
        ResizeKeepsInv(w, id, to);
      }
    case EndReplace(id) => SameSizesKeepsInv(w, Next(w, e));
    case Delete(id) => SameSizesKeepsInv(w, Next(w, e));
    case _ => EndingKeepsInv(w, e);
  }

  /** The event is a resize that goes through. */
  predicate Resizes(w: World, e: Event) {
    e.Resize? && ResizeAllowed(w, e.id, e.resources)
  }

  /** Each resize of the run that goes through finds the hosts of nodes on their way out with room as well. */
  predicate Careful(w: World, es: seq<Event>) {
    forall i | 0 <= i < |es| && Resizes(Run(w, es[..i]), es[i]) :: Covered(Run(w, es[..i]), es[i].id, es[i].resources)
  }

  lemma CarefulPrefix(w: World, es: seq<Event>)
    requires Careful(w, es) && es != []
    ensures Careful(w, es[..|es| - 1])
    ensures var last := es[|es| - 1]; Resizes(Run(w, es[..|es| - 1]), last) ==> Covered(Run(w, es[..|es| - 1]), last.id, last.resources)
  {
    var m := |es| - 1;
    forall i | 0 <= i < m && Resizes(Run(w, es[..m][..i]), es[i])
      ensures Covered(Run(w, es[..m][..i]), es[i].id, es[i].resources)
    {
      assert es[..m][..i] == es[..i];
    }
  }

  lemma {:induction false} RunKeepsInv(w: World, es: seq<Event>)
    requires Empty(w) && Careful(w, es)
    ensures Inv(Run(w, es)) && Members.Inv(Run(w, es))
  {
    Members.RunKeepsInv(w, es);
    if es != [] {
      var m := |es| - 1;
      CarefulPrefix(w, es);
      RunKeepsInv(w, es[..m]);
      StepKeepsInv(Run(w, es[..m]), es[m]);
    }
  }

  // ---- The theorems ----

  /** However many changes there are, each host stays within what it can give and one allowance. */
  lemma NeverOvercommitted(w: World, es: seq<Event>)
    requires Empty(w) && Careful(w, es)
    ensures AllWithin(Run(w, es))
  {
    RunKeepsInv(w, es);
  }

  /** Each resize of the run that goes through is of a database with no node on its way out. */
  predicate Tidy(w: World, es: seq<Event>) {
    forall i | 0 <= i < |es| && Resizes(Run(w, es[..i]), es[i]) ::
      forall n <- Run(w, es[..i]).nodes | n.db == es[i].id :: !n.retracted
  }

  /** Runs that resize only such databases need no further care. */
  lemma TidyNeverOvercommits(w: World, es: seq<Event>)
    requires Empty(w) && Tidy(w, es)
    ensures AllWithin(Run(w, es))
  {
    forall i | 0 <= i < |es| && Resizes(Run(w, es[..i]), es[i])
      ensures Covered(Run(w, es[..i]), es[i].id, es[i].resources)
    {
      NoneLeavingIsCovered(Run(w, es[..i]), es[i].id, es[i].resources);
    }
    NeverOvercommitted(w, es);
  }

  /** After any run, a resize the service allows is safe exactly when it is covered. */
  lemma AllowedResizeIsSafeExactlyWhen(w: World, es: seq<Event>, id: DbId, to: Resources)
    requires Empty(w) && Careful(w, es) && ResizeAllowed(Run(w, es), id, to)
    ensures AllWithin(Resized(Run(w, es), id, to)) <==> Covered(Run(w, es), id, to)
  {
    RunKeepsInv(w, es);
    ResizeIsSafeExactlyWhen(Run(w, es), id, to);
  }
}
