/**
Rotation of a database's CA: `ca_trust_both`, `ca_issue` and `ca_trust_new`, each
published as a new generation that nodes read, put in place and report at their
own pace. A node swaps its bundle and its certificate at separate moments.

`steady` holds nodes that are never excused as offline. The theorems are about them.
*/
module DatabaseCa {
  import opened Common
  import opened Operations
  import opened Generations

  type Ca = nat

  /** What a host is sent about a node: one reading of its rows. */
  datatype Snapshot = Snapshot(gen: nat, bundle: set<Ca>, cert: Ca)

  datatype Node = Node(
    issued: Ca,              // the CA of the certificate in its row
    desired: Snapshot,       // what its host read last
    bundle: set<Ca>, bundleGen: nat,
    cert: Ca, certGen: nat,
    reported: Reported)

  datatype Db = Db(
    ca: Ca, previous: Option<Ca>, generation: nat,
    step: Option<nat>,       // the step the running rotation is at
    target: nat,
    nextCa: Ca,
    bundleSince: nat,        // the generation that published the present bundle
    certSince: nat,          // the generation that published the present certificates
    certsFrom: Ca,           // the CA the last rotation to issue certificates took them from
    renewed: bool)           // a steady node has since been given one of the present CA

  datatype World = World(db: Db, nodes: map<NodeId, Node>, offline: set<NodeId>, steady: set<NodeId>)

  datatype NodeEvent = Fetch | ApplyBundle | ApplyCert | Report(running: bool)

  datatype Event =
    | Start
    | RunStep
    | FailOp                 // the operation times out, or a delete supersedes it
    | Publish                // another change raises the generation
    | Renew(id: NodeId)      // a certificate near its end is issued again
    | Join(id: NodeId, steady: bool) // a replacement adds a node
    | Leave(id: NodeId)      // and drops one
    | SetOffline(ids: set<NodeId>)
    | AtNode(id: NodeId, act: NodeEvent)

  function Bundle(d: Db): set<Ca> {
    {d.ca} + if d.previous.Some? then {d.previous.value} else {}
  }

  // ---- The steps of the operation ----

  function Raised(d: Db): Db {
    d.(generation := d.generation + 1, target := d.generation + 1)
  }

  function TrustBoth(d: Db): Db {
    var d' := Raised(d.(previous := Some(d.ca), ca := d.nextCa, nextCa := d.nextCa + 1));
    d'.(bundleSince := d'.generation, renewed := false)
  }

  function IssueAll(d: Db): Db {
    var d' := Raised(d.(certsFrom := d.ca));
    d'.(certSince := d'.generation, renewed := false)
  }

  function TrustNew(d: Db): Db {
    var d' := Raised(d.(previous := None));
    d'.(bundleSince := d'.generation, renewed := false)
  }

  function Reissued(nodes: map<NodeId, Node>, ca: Ca): map<NodeId, Node> {
    map id | id in nodes :: nodes[id].(issued := ca)
  }

  function Reports(nodes: map<NodeId, Node>): map<NodeId, Reported> {
    map id | id in nodes :: nodes[id].reported
  }

  predicate Waited(w: World) {
    AllApplied(Reports(w.nodes), w.offline, w.db.target)
  }

  function RunNamed(w: World, name: StepName, next: Option<nat>): World {
    match name
    case CaTrustBoth => w.(db := TrustBoth(w.db).(step := next))
    case CaIssue => w.(db := IssueAll(w.db).(step := next), nodes := Reissued(w.nodes, w.db.ca))
    case CaTrustNew => w.(db := TrustNew(w.db).(step := next))
    case WaitApplied => if Waited(w) then w.(db := w.db.(step := next)) else w
    case _ => w.(db := w.db.(step := next))
  }

  function Stepped(w: World, k: nat): World
    requires k < |Steps(RotateCa)|
  {
    RunNamed(w, Steps(RotateCa)[k], StepAfter(RotateCa, k))
  }

  // ---- The nodes ----

  function Current(d: Db, n: Node): Snapshot {
    Snapshot(d.generation, Bundle(d), n.issued)
  }

  function Min(a: nat, b: nat): nat { if a < b then a else b }

  function NodeNext(d: Db, n: Node, act: NodeEvent): Node {
    match act
    case Fetch => n.(desired := Current(d, n))
    case ApplyBundle => n.(bundle := n.desired.bundle, bundleGen := n.desired.gen)
    case ApplyCert => n.(cert := n.desired.cert, certGen := n.desired.gen)
    case Report(running) => n.(reported := Reported(Min(n.bundleGen, n.certGen), running))
  }

  // ---- Both together ----

  function Started(w: World): World {
    w.(db := w.db.(step := Some(0), target := w.db.generation, certsFrom := w.db.ca, renewed := false))
  }

  /** One node's certificate is issued again, from the present CA. */
  function Renewed(w: World, id: NodeId): World
    requires id in w.nodes
  {
    w.(nodes := w.nodes[id := w.nodes[id].(issued := w.db.ca)],
       db := w.db.(generation := w.db.generation + 1,
                   renewed := w.db.renewed || (id in w.steady && w.db.certsFrom != w.db.ca)))
  }

  /** Every steady node has the present CA in its bundle. */
  predicate SafeToRenew(w: World, id: NodeId) {
    id in w.steady ==> forall other <- w.steady :: other in w.nodes ==> w.db.ca in w.nodes[other].bundle
  }

  /** A node that joins has what its host first read: the present bundle, and a certificate of the present CA. */
  function NewMember(d: Db): Node {
    var read := Snapshot(d.generation, Bundle(d), d.ca);
    Node(d.ca, read, read.bundle, read.gen, read.cert, read.gen, Reported(0, false))
  }

  function Joined(w: World, id: NodeId, steady: bool): World {
    var d := w.db.(generation := w.db.generation + 1, renewed := w.db.renewed || (steady && w.db.certsFrom != w.db.ca));
    World(d, w.nodes[id := NewMember(d)], w.offline - {id}, if steady then w.steady + {id} else w.steady)
  }

  predicate SafeToJoin(w: World, steady: bool) {
    steady ==> forall other <- w.steady :: other in w.nodes ==> w.db.ca in w.nodes[other].bundle
  }

  /** Every steady node presents a certificate from the database's present CA. */
  predicate SafeToStart(w: World) {
    forall id <- w.steady :: id in w.nodes ==> w.nodes[id].cert == w.db.ca
  }

  function Next(w: World, e: Event): World {
    match e
    case Start => if w.db.step.None? && SafeToStart(w) then Started(w) else w
    case RunStep =>
      if w.db.step.Some? && w.db.step.value < |Steps(RotateCa)| then Stepped(w, w.db.step.value) else w
    case FailOp => w.(db := w.db.(step := None))
    case Publish => w.(db := w.db.(generation := w.db.generation + 1))
    case Renew(id) =>
      if w.db.step.None? && id in w.nodes && SafeToRenew(w, id) then Renewed(w, id) else w
    case Join(id, steady) =>
      if w.db.step.None? && id !in w.nodes && SafeToJoin(w, steady) then Joined(w, id, steady) else w
    case Leave(id) =>
      if w.db.step.None? && w.steady - {id} != {} then w.(nodes := w.nodes - {id}, steady := w.steady - {id}) else w
    case SetOffline(ids) => w.(offline := ids - w.steady)
    case AtNode(id, act) =>
      if id in w.nodes then w.(nodes := w.nodes[id := NodeNext(w.db, w.nodes[id], act)]) else w
  }

  function Run(w: World, es: seq<Event>): World {
    if es == [] then w else Next(Run(w, es[..|es| - 1]), es[|es| - 1])
  }

  // ---- The wait ----

  /**
  A rotation waits at each of its `wait_applied` steps until every node that is not excused
  runs and has reported the target, and then goes on with the next step.
  */
  lemma WaitEndsExactlyWhen(w: World, k: nat)
    requires w.db.step == Some(k) && k < |Steps(RotateCa)| && Steps(RotateCa)[k] == WaitApplied
    ensures Next(w, RunStep)
         == if forall id <- w.nodes.Keys - w.offline ::
                 w.nodes[id].reported.running && w.db.target <= w.nodes[id].reported.generation
            then w.(db := w.db.(step := Some(k + 1)))
            else w
  {
    var reports := Reports(w.nodes);
    assert forall id <- w.nodes :: id in reports && reports[id] == w.nodes[id].reported;
  }

  /** One node that is down, or behind, holds the step. */
  lemma OneNodeHoldsTheStep(w: World, k: nat, id: NodeId)
    requires w.db.step == Some(k) && k < |Steps(RotateCa)| && Steps(RotateCa)[k] == WaitApplied
    requires id in w.nodes && id !in w.offline
    requires !w.nodes[id].reported.running || w.nodes[id].reported.generation < w.db.target
    ensures Next(w, RunStep) == w
  {
    WaitEndsExactlyWhen(w, k);
  }

  /** What an excused node has reported, if anything, makes no difference to the step. */
  lemma ExcusedNodeHoldsNothing(w: World, k: nat, id: NodeId, other: Reported)
    requires w.db.step == Some(k) && k < |Steps(RotateCa)| && Steps(RotateCa)[k] == WaitApplied
    requires id in w.nodes && id in w.offline
    ensures var w' := w.(nodes := w.nodes[id := w.nodes[id].(reported := other)]);
            Next(w', RunStep).db == Next(w, RunStep).db
  {
    WaitEndsExactlyWhen(w, k);
    WaitEndsExactlyWhen(w.(nodes := w.nodes[id := w.nodes[id].(reported := other)]), k);
  }

  // ---- Between rotations ----

  /**
  A replacement adds a node that presents a certificate of the present CA at once, trusts all that is
  published, and that later waits hold out for until it runs, and removes one. During a rotation, and for
  a node that is there, nothing happens.
  */
  lemma MembersComeAndGo(w: World, id: NodeId, steady: bool)
    requires w.steady - {id} != {} && SafeToJoin(w, steady)
    ensures var t := Next(w, Join(id, steady));
            if w.db.step.Some? || id in w.nodes then t == w
            else
              && t.nodes.Keys == w.nodes.Keys + {id} && (forall other <- w.nodes :: t.nodes[other] == w.nodes[other])
              && t.nodes[id].cert == w.db.ca && t.nodes[id].bundle == Bundle(w.db)
              && id !in t.offline && !t.nodes[id].reported.running
              && t.db.generation > w.db.generation && t.steady == (if steady then w.steady + {id} else w.steady)
              && Next(t, Leave(id)).nodes == w.nodes && Next(t, Leave(id)).steady == w.steady - {id}
  {
  }

  /** A renewal is published, and once the node has read it and put it in place it presents a certificate of the present CA. */
  lemma RenewalReachesTheNode(w: World, id: NodeId)
    requires w.db.step.None? && id in w.nodes && SafeToRenew(w, id)
    ensures var renewed := Next(w, Renew(id));
            var t := Next(Next(renewed, AtNode(id, Fetch)), AtNode(id, ApplyCert));
            && renewed.db.generation > w.db.generation && renewed.nodes.Keys == w.nodes.Keys
            && t.nodes[id].cert == w.db.ca
            && forall other <- w.nodes | other != id :: t.nodes[other] == w.nodes[other]
  {
  }

  /** Any node that is not steady can be excused, and no steady one is. */
  lemma ExcusedAre(w: World, ids: set<NodeId>, id: NodeId)
    ensures id in Next(w, SetOffline(ids)).offline <==> id in ids && id !in w.steady
  {
  }

  /** Another change to the database raises the generation, which no wait is for, and changes nothing else. */
  lemma OtherChangesAreNotWaitedFor(w: World)
    ensures var t := Next(w, Publish);
            t.db.generation > w.db.generation && t == w.(db := w.db.(generation := t.db.generation))
  {
  }

  // ---- Trust ----

  /** Each steady node trusts the certificate each one presents. */
  ghost predicate MutualTrust(w: World) {
    forall a, b | a in w.steady && b in w.steady && a in w.nodes && b in w.nodes ::
      w.nodes[a].cert in w.nodes[b].bundle
  }

  /** No rotation is running and every node is on the one CA there is. */
  predicate Settled(w: World) {
    && w.db.step.None?
    && w.db.previous.None?
    && w.db.certsFrom == w.db.ca < w.db.nextCa
    && w.db.bundleSince == w.db.certSince == 0 && !w.db.renewed
    && w.offline !! w.steady
    && forall id <- w.nodes ::
         w.nodes[id] == Node(w.db.ca, Snapshot(w.nodes[id].desired.gen, {w.db.ca}, w.db.ca),
                             {w.db.ca}, w.nodes[id].bundleGen, w.db.ca, w.nodes[id].certGen, w.nodes[id].reported)
         && GensOk(w.db, w.nodes[id])
  }

  // ---- The invariant ----

  predicate GensOk(d: Db, n: Node) {
    && n.reported.generation <= n.bundleGen <= n.desired.gen
    && n.reported.generation <= n.certGen <= n.desired.gen
    && n.desired.gen <= d.generation
  }

  /** A part published at or after its last change is the present one. */
  predicate PartsOk(d: Db, n: Node) {
    && (d.bundleSince <= n.desired.gen ==> n.desired.bundle == Bundle(d))
    && (d.bundleSince <= n.bundleGen ==> n.bundle == Bundle(d))
    && (!d.renewed ==>
          && n.issued == d.certsFrom
          && (d.certSince <= n.desired.gen ==> n.desired.cert == d.certsFrom)
          && (d.certSince <= n.certGen ==> n.cert == d.certsFrom))
  }

  /** A certificate of the present CA, once there, is not taken back. */
  predicate InOrder(d: Db, n: Node) {
    && (n.cert == d.ca ==> n.desired.cert == d.ca)
    && (n.desired.cert == d.ca ==> n.issued == d.ca)
  }

  /** A CA is numbered below those to come, and one put in place was read before. */
  predicate BundlesOk(d: Db, n: Node) {
    && (forall ca <- n.bundle :: ca < d.nextCa) && (forall ca <- n.desired.bundle :: ca < d.nextCa)
    && (d.ca in n.bundle ==> d.ca in n.desired.bundle)
  }

  predicate Trusts(n: Node, ca: Ca) {
    ca in n.bundle && ca in n.desired.bundle
  }

  predicate Presents(n: Node, cas: set<Ca>) {
    n.cert in cas && n.desired.cert in cas
  }

  predicate DbOk(d: Db) {
    && d.bundleSince <= d.generation && d.certSince <= d.generation
    && d.ca < d.nextCa
    && (d.previous.None? ==> d.certsFrom == d.ca)
    && (d.previous.Some? ==> d.previous.value < d.nextCa && d.previous.value != d.ca
                             && d.certsFrom in {d.ca, d.previous.value})
    && (d.renewed ==> d.step.None? && d.certsFrom != d.ca)
    && (d.step.Some? ==>
          match d.step.value
          case 0 => d.certsFrom == d.ca
          case 1 => d.previous.Some? && d.certsFrom == d.previous.value && d.target == d.bundleSince
          case 2 => d.previous.Some? && d.certsFrom == d.previous.value
          case 3 => d.previous.Some? && d.certsFrom == d.ca && d.target == d.certSince
          case 4 => d.previous.Some? && d.certsFrom == d.ca
          case 5 => d.previous.None? && d.target == d.bundleSince
          case 6 => d.previous.None?
          case _ => false)
  }

  /** The first `CA` move: both are published, certificates are still the old ones. */
  predicate TrustingNode(d: Db, n: Node, p: Ca) {
    && Trusts(n, p) && Presents(n, {p})
    && (d.step == Some(2) ==> Trusts(n, d.ca))
  }

  /** Certificates were renewed before the second move: every node trusts both already. */
  predicate RenewedNode(d: Db, n: Node, p: Ca) {
    Trusts(n, p) && Trusts(n, d.ca) && Presents(n, {p, d.ca}) && n.issued in {p, d.ca} && InOrder(d, n)
  }

  /** The second: every node trusts both, and may present either. */
  predicate IssuingNode(d: Db, n: Node, p: Ca) {
    && Trusts(n, p) && Trusts(n, d.ca) && Presents(n, {p, d.ca}) && InOrder(d, n)
    && (d.step in {Some(0), Some(4)} ==> Presents(n, {d.ca}))
  }

  predicate SingleNode(d: Db, n: Node) {
    && Trusts(n, d.ca) && Presents(n, {d.ca})
    && (d.step == Some(6) ==> n.bundle == n.desired.bundle == {d.ca})
  }

  predicate NodeOk(d: Db, n: Node) {
    && GensOk(d, n)
    && PartsOk(d, n)
    && BundlesOk(d, n)
    && match d.previous
       case None => SingleNode(d, n)
       case Some(p) =>
         if d.certsFrom != p then IssuingNode(d, n, p)
         else if d.renewed then RenewedNode(d, n, p)
         else TrustingNode(d, n, p)
  }

  ghost predicate Inv(w: World) {
    && DbOk(w.db)
    && w.offline !! w.steady
    && {} != w.steady <= w.nodes.Keys
    && (forall id <- w.steady :: NodeOk(w.db, w.nodes[id]))
  }

  lemma NodeStep(d: Db, n: Node, act: NodeEvent)
    requires DbOk(d) && NodeOk(d, n)
    ensures NodeOk(d, NodeNext(d, n, act))
  {
  }

  lemma NodeThroughTrustBoth(d: Db, n: Node)
    requires DbOk(d) && NodeOk(d, n) && d.step == Some(0)
    ensures NodeOk(TrustBoth(d).(step := Some(1)), n)
  {
  }

  lemma NodeThroughIssue(d: Db, n: Node)
    requires DbOk(d) && NodeOk(d, n) && d.step == Some(2)
    ensures NodeOk(IssueAll(d).(step := Some(3)), n.(issued := d.ca))
  {
  }

  lemma NodeThroughTrustNew(d: Db, n: Node)
    requires DbOk(d) && NodeOk(d, n) && d.step == Some(4)
    ensures NodeOk(TrustNew(d).(step := Some(5)), n)
  {
  }

  /** Reporting the target generation means having what that generation published. */
  lemma NodeThroughWait(d: Db, n: Node, k: nat)
    requires DbOk(d) && NodeOk(d, n) && d.step == Some(k) && k in {1, 3, 5} && d.target <= n.reported.generation
    ensures NodeOk(d.(step := Some(k + 1)), n)
  {
  }

  predicate NameAt(name: StepName, next: Option<nat>, k: nat) {
    match k
    case 0 => name.CaTrustBoth? && next == Some(1)
    case 2 => name.CaIssue? && next == Some(3)
    case 4 => name.CaTrustNew? && next == Some(5)
    case 6 => name == Settle && next == None
    case _ => name == WaitApplied && next == Some(k + 1)
  }

  lemma StepNames(k: nat)
    requires k < |Steps(RotateCa)|
    ensures NameAt(Steps(RotateCa)[k], StepAfter(RotateCa, k), k) && k <= 6
  {
  }

  /** The world after a step, written out. */
  lemma NamedStep(w: World, k: nat, name: StepName, next: Option<nat>)
    requires k <= 6 && NameAt(name, next, k)
    ensures var w' := RunNamed(w, name, next);
            && (k == 0 ==> w'.db == TrustBoth(w.db).(step := Some(1)))
            && (k == 2 ==> w'.db == IssueAll(w.db).(step := Some(3)))
            && (k == 4 ==> w'.db == TrustNew(w.db).(step := Some(5)))
            && (k == 6 ==> w'.db == w.db.(step := None))
            && (k in {1, 3, 5} ==> w'.db == if Waited(w) then w.db.(step := Some(k + 1)) else w.db)
            && w'.nodes == if k == 2 then Reissued(w.nodes, w.db.ca) else w.nodes
  {
  }

  lemma DbThroughStep(d: Db, k: nat)
    requires DbOk(d) && d.step == Some(k)
    ensures k == 0 ==> DbOk(TrustBoth(d).(step := Some(1)))
    ensures k == 2 ==> DbOk(IssueAll(d).(step := Some(3)))
    ensures k == 4 ==> DbOk(TrustNew(d).(step := Some(5)))
    ensures k == 6 ==> DbOk(d.(step := None))
    ensures k in {1, 3, 5} ==> DbOk(d.(step := Some(k + 1)))
  {
  }

  lemma NodeThroughStep(w: World, id: NodeId, k: nat)
    requires Inv(w) && w.db.step == Some(k) && k < |Steps(RotateCa)| && id in w.steady
    ensures id in Stepped(w, k).nodes && NodeOk(Stepped(w, k).db, Stepped(w, k).nodes[id])
  {
    StepNames(k);
    NamedStep(w, k, Steps(RotateCa)[k], StepAfter(RotateCa, k));
    var n := w.nodes[id];
    if k == 0 {
      NodeThroughTrustBoth(w.db, n);
    } else if k == 2 {
      NodeThroughIssue(w.db, n);
    } else if k == 4 {
      NodeThroughTrustNew(w.db, n);
    } else if k == 6 {
      NodeThroughEnd(w.db, n);
    } else if Waited(w) {
      NodeThroughWait(w.db, n, k);
    }
  }

  lemma NodeThroughEnd(d: Db, n: Node)
    requires NodeOk(d, n)
    ensures NodeOk(d.(step := None), n)
  {
  }

  lemma NodeThroughStart(w: World, id: NodeId)
    requires Inv(w) && w.db.step.None? && SafeToStart(w) && id in w.steady
    ensures NodeOk(Started(w).db, w.nodes[id]) && DbOk(Started(w).db)
  {
    assert NodeOk(w.db, w.nodes[id]);
  }

  lemma OperationKeepsInv(w: World, k: nat)
    requires Inv(w) && w.db.step == Some(k) && k < |Steps(RotateCa)|
    ensures Inv(Stepped(w, k))
  {
    StepNames(k);
    NamedStep(w, k, Steps(RotateCa)[k], StepAfter(RotateCa, k));
    DbThroughStep(w.db, k);
    forall id <- w.steady
      ensures id in Stepped(w, k).nodes && NodeOk(Stepped(w, k).db, Stepped(w, k).nodes[id])
    {
      NodeThroughStep(w, id, k);
    }
  }

  lemma StartKeepsInv(w: World)
    requires Inv(w) && w.db.step.None? && SafeToStart(w)
    ensures Inv(Started(w))
  {
    forall id <- w.steady
      ensures NodeOk(Started(w).db, w.nodes[id]) && DbOk(Started(w).db)
    {
      NodeThroughStart(w, id);
    }
  }

  lemma StepKeepsInv(w: World, e: Event)
    requires Inv(w)
    ensures Inv(Next(w, e))
  {
    match e
    case Start =>
      if w.db.step.None? && SafeToStart(w) {
        StartKeepsInv(w);
      }
    case RunStep =>
      if w.db.step.Some? && w.db.step.value < |Steps(RotateCa)| {
        OperationKeepsInv(w, w.db.step.value);
      }
    case AtNode(id, act) =>
      if id in w.steady {
        NodeStep(w.db, w.nodes[id], act);
      }
    case Renew(id) =>
      if w.db.step.None? && id in w.nodes && SafeToRenew(w, id) {
        RenewKeepsInv(w, id);
      }
    case Join(id, steady) =>
      if w.db.step.None? && id !in w.nodes && SafeToJoin(w, steady) {
        JoinKeepsInv(w, id, steady);
      }
    case _ =>
  }

  lemma NewMemberOk(d: Db)
    requires DbOk(d) && d.step.None?
    ensures var d' := d.(generation := d.generation + 1, renewed := d.renewed || d.certsFrom != d.ca);
            NodeOk(d', NewMember(d'))
  {
  }

  lemma JoinKeepsInv(w: World, id: NodeId, steady: bool)
    requires Inv(w) && w.db.step.None? && id !in w.nodes && SafeToJoin(w, steady)
    ensures Inv(Joined(w, id, steady))
  {
    NewMemberOk(w.db);
    forall other <- w.steady
      ensures NodeOk(Joined(w, id, steady).db, w.nodes[other])
    {
      if steady {
        NodeThroughRenew(w.db, w.nodes[other], false);
      } else {
        NodeThroughPublish(w.db, w.nodes[other]);
      }
    }
  }

  lemma NodeThroughRenew(d: Db, n: Node, mine: bool)
    requires DbOk(d) && NodeOk(d, n) && d.step.None? && d.ca in n.bundle
    ensures NodeOk(d.(generation := d.generation + 1, renewed := d.renewed || d.certsFrom != d.ca),
                   if mine then n.(issued := d.ca) else n)
  {
  }

  lemma NodeThroughPublish(d: Db, n: Node)
    requires DbOk(d) && NodeOk(d, n)
    ensures NodeOk(d.(generation := d.generation + 1), n)
  {
  }

  lemma RenewKeepsInv(w: World, id: NodeId)
    requires Inv(w) && w.db.step.None? && id in w.nodes && SafeToRenew(w, id)
    ensures Inv(Renewed(w, id))
  {
    forall other <- w.steady
      ensures NodeOk(Renewed(w, id).db, Renewed(w, id).nodes[other])
    {
      if id in w.steady {
        NodeThroughRenew(w.db, w.nodes[other], other == id);
      } else {
        NodeThroughPublish(w.db, w.nodes[other]);
      }
    }
  }

  lemma {:induction false} RunKeepsInv(w: World, es: seq<Event>)
    requires Inv(w)
    ensures Inv(Run(w, es))
  {
    if es != [] {
      RunKeepsInv(w, es[..|es| - 1]);
      StepKeepsInv(Run(w, es[..|es| - 1]), es[|es| - 1]);
    }
  }

  lemma InvGivesTrust(w: World)
    requires Inv(w)
    ensures MutualTrust(w)
  {
    forall a, b | a in w.steady && b in w.steady
      ensures w.nodes[a].cert in w.nodes[b].bundle
    {
      assert NodeOk(w.db, w.nodes[a]) && NodeOk(w.db, w.nodes[b]);
    }
  }

  // ---- The theorems ----

  /**
  Through any number of rotations, at every moment and however nodes interleave, no
  steady node presents a certificate another steady node does not trust.
  */
  lemma NoNodeDistrusted(w: World, es: seq<Event>)
    requires Settled(w) && {} != w.steady <= w.nodes.Keys
    ensures MutualTrust(Run(w, es))
  {
    RunKeepsInv(w, es);
    InvGivesTrust(Run(w, es));
  }

  /** A rotation that reaches its last step has moved every steady node to the new CA and off the old one. */
  lemma RotationReplacesTheCa(w: World, es: seq<Event>, id: NodeId)
    requires Settled(w) && {} != w.steady <= w.nodes.Keys && id in Run(w, es).steady
    ensures var t := Run(w, es);
            t.db.step == Some(|Steps(RotateCa)| - 1) ==>
              id in t.nodes && t.nodes[id].cert == t.db.ca && t.nodes[id].bundle == {t.db.ca}
  {
    RunKeepsInv(w, es);
    assert NodeOk(Run(w, es).db, Run(w, es).nodes[id]);
  }

  /**
  A rotation may start in exactly the states where every steady node presents a
  certificate of the present CA. Anywhere else, such as after a rotation that failed
  before its certificates were in place, the first step publishes a bundle that
  leaves out a certificate in use.
  */
  lemma StartingIsSafeExactlyWhen(w: World, es: seq<Event>)
    requires Settled(w) && {} != w.steady <= w.nodes.Keys
    ensures var t := Run(w, es);
            t.db.step.None? ==> (SafeToStart(t) <==> forall more :: MutualTrust(Run(Started(t), more)))
  {
    RunKeepsInv(w, es);
    var t := Run(w, es);
    if t.db.step.None? {
      if SafeToStart(t) {
        StartKeepsInv(t);
        forall more
          ensures MutualTrust(Run(Started(t), more))
        {
          RunKeepsInv(Started(t), more);
          InvGivesTrust(Run(Started(t), more));
        }
      } else {
        UnsafeStart(t);
      }
    }
  }

  lemma RunExtend(w: World, es: seq<Event>, e: Event)
    ensures Run(w, es + [e]) == Next(Run(w, es), e)
  {
    assert (es + [e])[..|es|] == es;
  }

  lemma UnsafeStart(w: World)
    requires Inv(w) && w.db.step.None? && !SafeToStart(w)
    ensures exists more :: !MutualTrust(Run(Started(w), more))
  {
    var id :| id in w.steady && w.nodes[id].cert != w.db.ca;
    assert w.nodes[id].cert < w.db.nextCa by {
      assert NodeOk(w.db, w.nodes[id]);
    }
    OfferedTooSoon(Started(w), id);
  }

  /** The first step publishes a bundle that a node puts in place without the CA of its own certificate. */
  lemma OfferedTooSoon(t: World, id: NodeId)
    requires t.db.step == Some(0) && id in t.steady && id in t.nodes
    requires t.nodes[id].cert != t.db.ca && t.nodes[id].cert < t.db.nextCa
    ensures exists more :: !MutualTrust(Run(t, more))
  {
    var fetch, put := AtNode(id, Fetch), AtNode(id, ApplyBundle);
    FirstStep(t);
    var offered := Next(t, RunStep);
    var fetched := Next(offered, fetch);
    var bad := Next(fetched, put);
    assert fetched.nodes[id].desired.bundle == {t.db.nextCa, t.db.ca};
    assert bad.nodes[id].bundle == {t.db.nextCa, t.db.ca} && bad.nodes[id].cert == t.nodes[id].cert;
    assert !MutualTrust(bad);
    RunOfThree(t, RunStep, fetch, put);
  }

  lemma FirstStep(t: World)
    requires t.db.step == Some(0)
    ensures Next(t, RunStep) == t.(db := TrustBoth(t.db).(step := Some(1)))
  {
    StepNames(0);
    NamedStep(t, 0, Steps(RotateCa)[0], StepAfter(RotateCa, 0));
  }

  lemma RunOfThree(w: World, a: Event, b: Event, c: Event)
    ensures Run(w, [a, b, c]) == Next(Next(Next(w, a), b), c)
  {
    RunExtend(w, [], a);
    RunExtend(w, [a], b);
    RunExtend(w, [a, b], c);
    assert [] + [a] == [a] && [a] + [b] == [a, b] && [a, b] + [c] == [a, b, c];
  }

  /**
  Renewing a certificate between rotations is safe exactly when every steady node has the
  present CA in its bundle already, or the node is not one of them. After a rotation that
  failed early, the present CA is one that nodes may not know yet.
  */
  lemma RenewingIsSafeExactlyWhen(w: World, es: seq<Event>, id: NodeId)
    requires Settled(w) && {} != w.steady <= w.nodes.Keys
    requires var t := Run(w, es); t.db.step.None? && id in t.nodes
    ensures var t := Run(w, es);
            SafeToRenew(t, id) <==> forall more :: MutualTrust(Run(Renewed(t, id), more))
  {
    RunKeepsInv(w, es);
    var t := Run(w, es);
    if SafeToRenew(t, id) {
      RenewKeepsInv(t, id);
      forall more
        ensures MutualTrust(Run(Renewed(t, id), more))
      {
        RunKeepsInv(Renewed(t, id), more);
        InvGivesTrust(Run(Renewed(t, id), more));
      }
    } else {
      UnsafeRenewal(t, id);
    }
  }

  lemma UnsafeRenewal(w: World, id: NodeId)
    requires Inv(w) && id in w.nodes && !SafeToRenew(w, id)
    ensures exists more :: !MutualTrust(Run(Renewed(w, id), more))
  {
    var other :| other in w.steady && other in w.nodes && w.db.ca !in w.nodes[other].bundle;
    var t := Renewed(w, id);
    var fetch, put := AtNode(id, Fetch), AtNode(id, ApplyCert);
    RunExtend(t, [], fetch);
    assert [] + [fetch] == [fetch];
    RunExtend(t, [fetch], put);
    var bad := Run(t, [fetch] + [put]);
    assert bad.nodes[id].cert == w.db.ca && bad.nodes[other].bundle == w.nodes[other].bundle;
    assert !MutualTrust(bad);
  }

  /**
  A replacement adds a node that presents a certificate of the present CA at once. That is
  safe exactly when every steady node has that CA in its bundle already.
  */
  lemma JoiningIsSafeExactlyWhen(w: World, es: seq<Event>, id: NodeId)
    requires Settled(w) && {} != w.steady <= w.nodes.Keys
    requires var t := Run(w, es); t.db.step.None? && id !in t.nodes
    ensures var t := Run(w, es);
            SafeToJoin(t, true) <==> forall more :: MutualTrust(Run(Joined(t, id, true), more))
  {
    RunKeepsInv(w, es);
    var t := Run(w, es);
    var j := Joined(t, id, true);
    if SafeToJoin(t, true) {
      JoinKeepsInv(t, id, true);
      forall more
        ensures MutualTrust(Run(j, more))
      {
        RunKeepsInv(j, more);
        InvGivesTrust(Run(j, more));
      }
    } else {
      UnsafeJoin(t, id);
    }
  }

  lemma UnsafeJoin(w: World, id: NodeId)
    requires id !in w.nodes && !SafeToJoin(w, true)
    ensures !MutualTrust(Run(Joined(w, id, true), []))
  {
    var other :| other in w.steady && other in w.nodes && w.db.ca !in w.nodes[other].bundle;
    var j := Joined(w, id, true);
    assert other in j.steady && id in j.steady;
    assert j.nodes[id].cert !in j.nodes[other].bundle;
  }

  /** With no old CA left in the secrets, a rotation is always safe to start. */
  lemma SettledSecretsAreSafe(w: World, es: seq<Event>)
    requires Settled(w) && {} != w.steady <= w.nodes.Keys
    ensures Run(w, es).db.previous.None? ==> SafeToStart(Run(w, es))
  {
    RunKeepsInv(w, es);
    var t := Run(w, es);
    if t.db.previous.None? {
      forall id <- t.steady
        ensures t.nodes[id].cert == t.db.ca
      {
        assert NodeOk(t.db, t.nodes[id]);
      }
    }
  }

  /** A rotation that fails as soon as it has published the new CA leaves nodes as they were. */
  lemma FailedRun(w: World)
    requires Settled(w) && {} != w.steady <= w.nodes.Keys
    ensures var t := Run(w, [Start, RunStep, FailOp]);
            && t.nodes == w.nodes && t.steady == w.steady && t.db.step.None?
            && t.db.ca == w.db.nextCa && t.db.previous == Some(w.db.ca)
  {
    assert SafeToStart(w);
    RunOfThree(w, Start, RunStep, FailOp);
    FirstStep(Started(w));
  }

  /** After it, no other rotation may start, no node join, and no steady node's certificate be renewed. */
  lemma FailedRotationBlocksTheNext(w: World)
    requires Settled(w) && {} != w.steady <= w.nodes.Keys
    ensures var t := Run(w, [Start, RunStep, FailOp]);
            && t.db.step.None? && !SafeToStart(t) && (exists more :: !MutualTrust(Run(Started(t), more)))
            && !SafeToJoin(t, true) && forall id <- t.steady :: !SafeToRenew(t, id)
  {
    RunKeepsInv(w, [Start, RunStep, FailOp]);
    FailedRun(w);
    var t := Run(w, [Start, RunStep, FailOp]);
    var id :| id in w.steady;
    assert t.nodes[id].cert == w.db.ca != t.db.ca && t.nodes[id].bundle == {w.db.ca};
    UnsafeStart(t);
  }

  // ---- A whole rotation ----

  lemma Extend(w: World, es: seq<Event>, e: Event) returns (es': seq<Event>)
    ensures Run(w, es') == Next(Run(w, es), e)
  {
    RunExtend(w, es, e);
    es' := es + [e];
  }

  /** The node has in place, and has reported, all that is published. */
  predicate CaughtUp(d: Db, n: Node) {
    n.bundle == Bundle(d) && n.cert == n.issued && n.reported == Reported(d.generation, true)
  }

  lemma NodeCatchesUp(w: World, es: seq<Event>, id: NodeId) returns (es': seq<Event>)
    requires id in Run(w, es).nodes
    ensures var t, t' := Run(w, es), Run(w, es');
            && id in t'.nodes && t' == t.(nodes := t.nodes[id := t'.nodes[id]])
            && CaughtUp(t.db, t'.nodes[id]) && t'.nodes[id].issued == t.nodes[id].issued
  {
    es' := Extend(w, es, AtNode(id, Fetch));
    es' := Extend(w, es', AtNode(id, ApplyBundle));
    es' := Extend(w, es', AtNode(id, ApplyCert));
    es' := Extend(w, es', AtNode(id, Report(true)));
  }

  /** Only what nodes have in place changed. */
  predicate SameRows(t: World, t': World) {
    && t' == t.(nodes := t'.nodes) && t'.nodes.Keys == t.nodes.Keys
    && forall id <- t.nodes :: t'.nodes[id].issued == t.nodes[id].issued
  }

  lemma {:induction false} AllCatchUp(w: World, es: seq<Event>, ids: set<NodeId>) returns (es': seq<Event>)
    requires ids <= Run(w, es).nodes.Keys
    ensures SameRows(Run(w, es), Run(w, es'))
    ensures forall id <- ids :: CaughtUp(Run(w, es).db, Run(w, es').nodes[id])
    decreases ids
  {
    es' := es;
    if ids != {} {
      var id :| id in ids;
      es' := AllCatchUp(w, es, ids - {id});
      es' := NodeCatchesUp(w, es', id);
    }
  }

  /** Every node catches up, and the wait is over. */
  lemma WaitIsOver(w: World, es: seq<Event>, k: nat) returns (es': seq<Event>)
    requires k in {1, 3, 5} && Run(w, es).db.step == Some(k) && Run(w, es).db.target <= Run(w, es).db.generation
    ensures var t, t' := Run(w, es), Run(w, es');
            && SameRows(t.(db := t'.db), t') && t'.db == t.db.(step := Some(k + 1))
            && forall id <- t'.nodes :: CaughtUp(t'.db, t'.nodes[id])
  {
    es' := AllCatchUp(w, es, Run(w, es).nodes.Keys);
    StepNames(k);
    WaitEndsExactlyWhen(Run(w, es'), k);
    es' := Extend(w, es', RunStep);
  }

  /** One of the steps that change rows. */
  lemma StepIsRun(w: World, es: seq<Event>, k: nat) returns (es': seq<Event>)
    requires k in {0, 2, 4, 6} && Run(w, es).db.step == Some(k)
    ensures var t, t' := Run(w, es), Run(w, es');
            && t' == t.(db := t'.db, nodes := if k == 2 then Reissued(t.nodes, t.db.ca) else t.nodes)
            && (k == 0 ==> t'.db == TrustBoth(t.db).(step := Some(1)))
            && (k == 2 ==> t'.db == IssueAll(t.db).(step := Some(3)))
            && (k == 4 ==> t'.db == TrustNew(t.db).(step := Some(5)))
            && (k == 6 ==> t'.db == t.db.(step := None))
  {
    StepNames(k);
    NamedStep(Run(w, es), k, Steps(RotateCa)[k], StepAfter(RotateCa, k));
    es' := Extend(w, es, RunStep);
  }

  /** From every settled state a rotation can be seen through: every node is then on the new CA alone. */
  lemma RotationCanFinish(w: World) returns (es: seq<Event>)
    requires Settled(w)
    ensures var t := Run(w, es);
            && t.db.step.None? && t.db.ca == w.db.nextCa && t.db.previous.None? && t.nodes.Keys == w.nodes.Keys
            && forall id <- t.nodes ::
                 t.nodes[id].issued == t.nodes[id].cert == w.db.nextCa && t.nodes[id].bundle == {w.db.nextCa}
  {
    es := IssuingCanFinish(w);
    es := StepIsRun(w, es, 4);
    es := WaitIsOver(w, es, 5);
    es := StepIsRun(w, es, 6);
  }

  lemma IssuingCanFinish(w: World) returns (es: seq<Event>)
    requires Settled(w)
    ensures var t := Run(w, es);
            && t.db.step == Some(4) && t.db.ca == w.db.nextCa && t.nodes.Keys == w.nodes.Keys
            && forall id <- t.nodes :: t.nodes[id].issued == w.db.nextCa
  {
    assert SafeToStart(w);
    es := Extend(w, [], Start);
    es := StepIsRun(w, es, 0);
    es := WaitIsOver(w, es, 1);
    es := StepIsRun(w, es, 2);
    es := WaitIsOver(w, es, 3);
  }

  // ---- The transactions of the steps ----

  /** The rows of one database that a rotation of its CA reads and writes. */
  class Rows {
    var db: Db
    var nodes: map<NodeId, Node>
    var offline: set<NodeId>
    var steady: set<NodeId>

    ghost function State(): World
      reads this
    {
      World(db, nodes, offline, steady)
    }

    constructor (db: Db, nodes: map<NodeId, Node>, steady: set<NodeId>)
      ensures State() == World(db, nodes, {}, steady)
    {
      this.db, this.nodes, this.offline, this.steady := db, nodes, {}, steady;
    }

    method BumpGeneration()
      modifies this`db
      ensures db == Raised(old(db))
    {
      db := db.(generation := db.generation + 1);
      db := db.(target := db.generation);
    }

    /** Give every node a certificate from the new CA, one row at a time. */
    method Reissue()
      modifies this`nodes
      ensures nodes == Reissued(old(nodes), db.ca)
    {
      ghost var before := nodes;
      var todo := nodes.Keys;
      while todo != {}
        invariant todo <= nodes.Keys == before.Keys
        invariant forall id <- nodes :: nodes[id] == if id in todo then before[id] else before[id].(issued := db.ca)
        decreases todo
      {
        var id :| id in todo;
        nodes := nodes[id := nodes[id].(issued := db.ca)];
        todo := todo - {id};
      }
    }

    /** A certificate is issued again while no operation runs. */
    method RenewCertificate(id: NodeId)
      requires id in nodes && db.step.None?
      modifies this`db, this`nodes
      ensures State() == Renewed(old(State()), id)
    {
      nodes := nodes[id := nodes[id].(issued := db.ca)];
      db := db.(generation := db.generation + 1, renewed := db.renewed || (id in steady && db.certsFrom != db.ca));
    }

    /** A replacement is refused while a rotation runs, and otherwise records a node certified by the present CA. */
    method AddMember(id: NodeId, counted: bool) returns (accepted: bool)
      requires id !in nodes
      modifies this`db, this`nodes, this`offline, this`steady
      ensures accepted == old(db).step.None?
      ensures State() == if accepted then Joined(old(State()), id, counted) else old(State())
    {
      accepted := db.step.None?;
      if accepted {
        db := db.(generation := db.generation + 1, renewed := db.renewed || (counted && db.certsFrom != db.ca));
        nodes := nodes[id := NewMember(db)];
        offline := offline - {id};
        if counted {
          steady := steady + {id};
        }
      }
    }

    method DoStep(name: StepName, next: Option<nat>)
      modifies this`db, this`nodes
      ensures State() == RunNamed(old(State()), name, next)
    {
      var done := true;
      match name {
        case CaTrustBoth =>
          db := db.(previous := Some(db.ca), ca := db.nextCa, nextCa := db.nextCa + 1);
          BumpGeneration();
          db := db.(bundleSince := db.generation, renewed := false);
        case CaIssue =>
          Reissue();
          db := db.(certsFrom := db.ca);
          BumpGeneration();
          db := db.(certSince := db.generation, renewed := false);
        case CaTrustNew =>
          db := db.(previous := None);
          BumpGeneration();
          db := db.(bundleSince := db.generation, renewed := false);
        case WaitApplied => done := WaitedFor(Reports(nodes), offline, db.target);
        case _ =>
      }
      if done {
        db := db.(step := next);
      }
    }

    method Step()
      modifies this`db, this`nodes
      ensures State() == Next(old(State()), RunStep)
    {
      if db.step.Some? && db.step.value < |Steps(RotateCa)| {
        DoStep(Steps(RotateCa)[db.step.value], StepAfter(RotateCa, db.step.value));
      }
    }
  }
}
