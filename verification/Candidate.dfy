/**
The choice of a standby to promote. Standbys are asked for their positions while they
still receive, and `sync_strict` promotes one only once every one of them has answered.
*/
module Candidate {
  import opened Common

  type NodeId = string

  datatype Role = Primary | Replica | Offline | Maintenance | Unknown

  datatype NodeConfig = NodeConfig(priority: nat, external: bool)

  datatype Topology = Topology(mode: ReplicationMode, roles: map<NodeId, Role>, configs: map<NodeId, NodeConfig>)

  /** What a standby says of itself. */
  datatype Status = Status(running: bool, inRecovery: bool, received: nat, replayed: nat)

  datatype Answer = Answer(id: NodeId, status: Option<Status>)

  datatype Position = Position(id: NodeId, lsn: nat)

  // ---- The choice ----

  function Held(s: Status): nat {
    if s.received < s.replayed then s.replayed else s.received
  }

  /** A commit is on a standby once its WAL was received, or replayed. */
  predicate HasCommit(s: Status, lsn: nat) {
    lsn <= s.received || lsn <= s.replayed
  }

  /** The standbys a strict promotion must hear from. */
  function Standbys(t: Topology, failed: NodeId): set<NodeId> {
    set id <- t.configs | id != failed && !t.configs[id].external
  }

  /** The standbys that are asked. */
  function Asked(t: Topology, failed: NodeId): set<NodeId> {
    set id <- t.roles | id != failed && t.roles[id] == Replica && id in t.configs && !t.configs[id].external
  }

  function PositionIn(a: Answer): Option<Position> {
    if a.status.Some? && a.status.value.running && a.status.value.inRecovery then
      Some(Position(a.id, Held(a.status.value)))
    else None
  }

  /** The positions in the answers, in the order they came. */
  function Positions(answers: seq<Answer>): seq<Position> {
    if answers == [] then []
    else
      var rest := Positions(answers[..|answers| - 1]);
      match PositionIn(answers[|answers| - 1])
      case None => rest
      case Some(p) => rest + [p]
  }

  function Priority(t: Topology, id: NodeId): nat {
    if id in t.configs then t.configs[id].priority else 0
  }

  predicate AtMost(t: Topology, a: Position, b: Position) {
    a.lsn < b.lsn || (a.lsn == b.lsn && Priority(t, a.id) <= Priority(t, b.id))
  }

  /** The last of the greatest, by position and then by priority. */
  function Best(t: Topology, ps: seq<Position>): Option<Position> {
    if ps == [] then None
    else
      var last := ps[|ps| - 1];
      var best := Best(t, ps[..|ps| - 1]);
      if best.Some? && !AtMost(t, best.value, last) then best else Some(last)
  }

  function Pick(t: Topology, failed: NodeId, ps: seq<Position>): Option<Position> {
    if t.mode == SyncStrict && |ps| < |Standbys(t, failed)| then None else Best(t, ps)
  }

  /** The position is behind no other, no other as far has a higher priority, and a later one as far has a lower. */
  predicate IsBest(t: Topology, ps: seq<Position>, k: nat) {
    && k < |ps|
    && (forall i | 0 <= i < |ps| :: ps[i].lsn <= ps[k].lsn)
    && (forall i | 0 <= i < |ps| && ps[i].lsn == ps[k].lsn :: Priority(t, ps[i].id) <= Priority(t, ps[k].id))
    && (forall i | k < i < |ps| && ps[i].lsn == ps[k].lsn :: Priority(t, ps[i].id) < Priority(t, ps[k].id))
  }

  lemma {:induction false} BestIsGreatest(t: Topology, ps: seq<Position>) returns (k: nat)
    requires ps != []
    ensures IsBest(t, ps, k) && Best(t, ps) == Some(ps[k])
  {
    var m := |ps| - 1;
    k := m;
    if m > 0 {
      var before := BestIsGreatest(t, ps[..m]);
      assert forall i | 0 <= i < m :: ps[..m][i] == ps[i];
      if !AtMost(t, ps[before], ps[m]) {
        k := before;
      }
    }
  }

  // ---- A failover in time ----

  /**
  The failed primary has acknowledged some commits, each while the standby recorded for
  it held it. Standbys go on receiving, and answer in any order.
  */
  datatype World = World(
    topology: Topology, failed: NodeId,
    standbys: map<NodeId, Status>,
    acked: map<nat, NodeId>,
    answers: seq<Answer>)

  datatype Event =
    | Report(id: NodeId, status: Status)  // a standby receives, replays, starts or stops
    | Ack(lsn: nat, holder: NodeId)          // the primary acknowledges a commit that a standby holds
    | Reply(id: NodeId, heard: bool)      // a standby answers, or its answer is lost or late

  predicate HasReplied(w: World, id: NodeId) {
    exists a <- w.answers :: a.id == id
  }

  function Next(w: World, e: Event): World {
    match e
    case Report(id, status) =>
      if id in w.standbys && w.standbys[id].received <= status.received && w.standbys[id].replayed <= status.replayed then
        w.(standbys := w.standbys[id := status])
      else w
    case Ack(lsn, holder) =>
      if w.answers == [] && holder in Standbys(w.topology, w.failed) && holder in w.standbys && HasCommit(w.standbys[holder], lsn) then
        w.(acked := w.acked[lsn := holder])
      else w
    case Reply(id, heard) =>
      if id in Asked(w.topology, w.failed) && id in w.standbys && !HasReplied(w, id) then
        w.(answers := w.answers + [Answer(id, if heard then Some(w.standbys[id]) else None)])
      else w
  }

  function Run(w: World, es: seq<Event>): World {
    if es == [] then w else Next(Run(w, es[..|es| - 1]), es[|es| - 1])
  }

  /** Every commit acknowledged so far is held by the standby recorded for it, and none has been asked. */
  predicate Before(w: World) {
    && w.answers == []
    && forall lsn <- w.acked :: AckOk(w, lsn, w.acked[lsn])
  }

  predicate AckOk(w: World, lsn: nat, holder: NodeId) {
    && holder in Standbys(w.topology, w.failed) && holder in w.standbys
    && HasCommit(w.standbys[holder], lsn)
    && forall a <- w.answers | a.id == holder && a.status.Some? :: HasCommit(a.status.value, lsn)
  }

  // ---- The invariant ----

  predicate AnswersOk(w: World) {
    && (forall i, j | 0 <= i < j < |w.answers| :: w.answers[i].id != w.answers[j].id)
    && (forall a <- w.answers :: a.id in Asked(w.topology, w.failed) && a.id in w.standbys
                                 && (a.status.Some? ==> a.status.value.received <= w.standbys[a.id].received
                                                        && a.status.value.replayed <= w.standbys[a.id].replayed))
  }

  predicate Inv(w: World) {
    AnswersOk(w) && forall lsn <- w.acked :: AckOk(w, lsn, w.acked[lsn])
  }

  lemma StepKeepsInv(w: World, e: Event)
    requires Inv(w)
    ensures Inv(Next(w, e)) && Next(w, e).topology == w.topology && Next(w, e).failed == w.failed
  {
    var w' := Next(w, e);
    forall lsn <- w'.acked
      ensures AckOk(w', lsn, w'.acked[lsn])
    {
      assert lsn in w.acked ==> AckOk(w, lsn, w.acked[lsn]);
    }
  }

  lemma {:induction false} RunKeepsInv(w: World, es: seq<Event>)
    requires Inv(w)
    ensures Inv(Run(w, es)) && Run(w, es).topology == w.topology && Run(w, es).failed == w.failed
  {
    if es != [] {
      RunKeepsInv(w, es[..|es| - 1]);
      StepKeepsInv(Run(w, es[..|es| - 1]), es[|es| - 1]);
    }
  }

  // ---- The counting argument ----

  function Ids(ps: seq<Position>): set<NodeId> {
    set p <- ps :: p.id
  }

  /** Positions come from separate nodes that were asked, each from its answer. */
  lemma {:induction false} PositionsAre(answers: seq<Answer>)
    requires forall i, j | 0 <= i < j < |answers| :: answers[i].id != answers[j].id
    ensures |Ids(Positions(answers))| == |Positions(answers)|
    ensures forall p <- Positions(answers) :: exists a <- answers :: PositionIn(a) == Some(p)
  {
    if answers != [] {
      var m := |answers| - 1;
      PositionsAre(answers[..m]);
      var rest := Positions(answers[..m]);
      var last := PositionIn(answers[m]);
      assert forall a <- answers[..m] :: a in answers && a.id != answers[m].id;
      if last.Some? {
        assert Ids(rest + [last.value]) == Ids(rest) + {last.value.id};
        assert answers[m] in answers;
      }
    }
  }

  lemma EqualBySize(a: set<NodeId>, b: set<NodeId>)
    requires a <= b && |b| <= |a|
    ensures a == b
  {
    if x :| x in b && x !in a {
      SubsetCount(a + {x}, b);
    }
  }

  /** As many positions as standbys, all of them asked once, are the positions of every standby. */
  lemma AllAnswered(w: World)
    requires Inv(w) && |Positions(w.answers)| >= |Standbys(w.topology, w.failed)|
    ensures Ids(Positions(w.answers)) == Standbys(w.topology, w.failed)
  {
    PositionsAre(w.answers);
    var ids, standbys := Ids(Positions(w.answers)), Standbys(w.topology, w.failed);
    forall id <- ids
      ensures id in standbys
    {
      var p :| p in Positions(w.answers) && p.id == id;
      var a :| a in w.answers && PositionIn(a) == Some(p);
    }
    EqualBySize(ids, standbys);
  }

  /** Some position is at or past each acknowledged commit. */
  lemma AckedIsReported(w: World, lsn: nat)
    requires Inv(w) && |Positions(w.answers)| >= |Standbys(w.topology, w.failed)| && lsn in w.acked
    ensures exists p <- Positions(w.answers) :: lsn <= p.lsn
  {
    AllAnswered(w);
    PositionsAre(w.answers);
    assert AckOk(w, lsn, w.acked[lsn]);
    var p :| p in Positions(w.answers) && p.id == w.acked[lsn];
    var a :| a in w.answers && PositionIn(a) == Some(p);
  }

  // ---- The theorem ----

  /**
  Under `sync_strict`, whatever the standbys went on receiving and in whatever order they
  answered, a node chosen holds every commit the failed primary acknowledged.
  */
  lemma StrictLosesNothing(w: World, es: seq<Event>, lsn: nat)
    requires Before(w) && w.topology.mode == SyncStrict && lsn in Run(w, es).acked
    requires Pick(w.topology, w.failed, Positions(Run(w, es).answers)).Some?
    ensures var chosen := Pick(w.topology, w.failed, Positions(Run(w, es).answers)).value;
            && lsn <= chosen.lsn
            && chosen.id in Standbys(w.topology, w.failed)
            && chosen.id in Run(w, es).standbys && HasCommit(Run(w, es).standbys[chosen.id], lsn)
  {
    RunKeepsInv(w, es);
    var w' := Run(w, es);
    var ps := Positions(w'.answers);
    AckedIsReported(w', lsn);
    var k := BestIsGreatest(w.topology, ps);
    var p :| p in ps && lsn <= p.lsn;
    assert ps[k] in ps;
    PositionIsHeld(w', ps[k], lsn);
  }

  /** A standby that answered with a position still holds every commit up to it. */
  lemma PositionIsHeld(w: World, p: Position, lsn: nat)
    requires Inv(w) && p in Positions(w.answers) && lsn <= p.lsn
    ensures p.id in Standbys(w.topology, w.failed) && p.id in w.standbys && HasCommit(w.standbys[p.id], lsn)
  {
    PositionsAre(w.answers);
    var a :| a in w.answers && PositionIn(a) == Some(p);
  }

  /** In another mode, a standby without the commit is chosen if it is the only one to answer. */
  lemma OtherModesCanLose(w: World, id: NodeId, lsn: nat)
    requires Before(w) && w.topology.mode != SyncStrict && lsn in w.acked
    requires id in Asked(w.topology, w.failed) && id in w.standbys
    requires w.standbys[id].running && w.standbys[id].inRecovery && !HasCommit(w.standbys[id], lsn)
    ensures var chosen := Pick(w.topology, w.failed, Positions(Run(w, [Reply(id, true)]).answers));
            chosen.Some? && chosen.value.id == id && chosen.value.lsn < lsn
  {
    var answer := Answer(id, Some(w.standbys[id]));
    assert Run(w, [Reply(id, true)]) == Next(Run(w, []), Reply(id, true));
    assert w.answers + [answer] == [answer];
    var p := Position(id, Held(w.standbys[id]));
    assert Positions([answer]) == Positions([]) + [p];
    assert Best(w.topology, [p]) == Some(p);
  }

  /**
  So from before any commit: one standby receives it, the primary acknowledges it, and another standby that
  has not received it is the only one to answer.
  */
  lemma OtherModesCanLoseACommit(w: World, ahead: NodeId, behind: NodeId, status: Status)
    requires Before(w) && w.topology.mode != SyncStrict && ahead != behind
    requires ahead in Standbys(w.topology, w.failed) && ahead in w.standbys
    requires w.standbys[ahead].received < status.received && w.standbys[ahead].replayed <= status.replayed
    requires behind in Asked(w.topology, w.failed) && behind in w.standbys && !HasCommit(w.standbys[behind], status.received)
    requires w.standbys[behind].running && w.standbys[behind].inRecovery
    ensures var t := Run(w, [Report(ahead, status), Ack(status.received, ahead), Reply(behind, true)]);
            && status.received in t.acked
            && var chosen := Pick(w.topology, w.failed, Positions(t.answers));
            chosen.Some? && chosen.value.id == behind && chosen.value.lsn < status.received
  {
    var acked := w.(standbys := w.standbys[ahead := status], acked := w.acked[status.received := ahead]);
    var es := [Report(ahead, status), Ack(status.received, ahead)];
    assert es[..1] == [Report(ahead, status)] && es[..1][..0] == [];
    assert Run(w, es[..1]) == Next(w, Report(ahead, status));
    assert Run(w, es) == acked;
    RunKeepsInv(w, es);
    OtherModesCanLose(acked, behind, status.received);
    RunConcat(w, es, [Reply(behind, true)]);
    assert es + [Reply(behind, true)] == [Report(ahead, status), Ack(status.received, ahead), Reply(behind, true)];
  }

  // ---- When a choice is made ----

  /** An answer of the node was heard, and the node runs and is in recovery. */
  predicate Heard(answers: seq<Answer>, id: NodeId) {
    exists a <- answers :: a.id == id && a.status.Some? && a.status.value.running && a.status.value.inRecovery
  }

  predicate OneEach(answers: seq<Answer>) {
    forall i, j | 0 <= i < j < |answers| :: answers[i].id != answers[j].id
  }

  /** There is a configured standby besides the failed node and external ones, and each was heard. */
  predicate AllHeard(t: Topology, failed: NodeId, answers: seq<Answer>) {
    && (exists id <- t.configs :: id != failed && !t.configs[id].external)
    && forall id <- t.configs | id != failed && !t.configs[id].external :: Heard(answers, id)
  }

  lemma {:induction false} HeardIsPositioned(answers: seq<Answer>, id: NodeId)
    ensures id in Ids(Positions(answers)) <==> Heard(answers, id)
  {
    if answers != [] {
      var m := |answers| - 1;
      HeardIsPositioned(answers[..m], id);
      var rest, last := Positions(answers[..m]), PositionIn(answers[m]);
      assert answers == answers[..m] + [answers[m]];
      if last.Some? {
        assert Ids(rest + [last.value]) == Ids(rest) + {last.value.id};
      }
    }
  }

  lemma NoneHeard(answers: seq<Answer>)
    ensures Positions(answers) == [] <==> forall id :: !Heard(answers, id)
  {
    forall id
      ensures id in Ids(Positions(answers)) <==> Heard(answers, id)
    {
      HeardIsPositioned(answers, id);
    }
    if Positions(answers) != [] {
      assert Positions(answers)[0].id in Ids(Positions(answers));
    }
  }

  lemma BestExists(t: Topology, ps: seq<Position>)
    ensures Best(t, ps).Some? <==> ps != []
  {
  }

  /** As many positions as standbys, from nodes that were asked once each, come from every standby. */
  lemma EnoughIsAll(t: Topology, failed: NodeId, answers: seq<Answer>)
    requires OneEach(answers) && forall a <- answers :: a.id in Asked(t, failed)
    ensures |Positions(answers)| >= |Standbys(t, failed)| <==> forall id <- Standbys(t, failed) :: Heard(answers, id)
  {
    PositionsAre(answers);
    var ids, standbys := Ids(Positions(answers)), Standbys(t, failed);
    forall id
      ensures id in ids <==> Heard(answers, id)
    {
      HeardIsPositioned(answers, id);
    }
    assert ids <= standbys;
    if |ids| >= |standbys| {
      EqualBySize(ids, standbys);
    } else if standbys <= ids {
      SubsetCount(standbys, ids);
    }
  }

  /**
  Whatever was heard: `sync_strict` makes a choice exactly when there is a standby and every one
  was heard, and the other modes exactly when any was.
  */
  lemma ChosenExactlyWhen(t: Topology, failed: NodeId, answers: seq<Answer>)
    requires OneEach(answers) && forall a <- answers :: a.id in Asked(t, failed)
    ensures t.mode == SyncStrict ==> (Pick(t, failed, Positions(answers)).Some? <==> AllHeard(t, failed, answers))
    ensures t.mode != SyncStrict ==> (Pick(t, failed, Positions(answers)).Some? <==> exists id :: Heard(answers, id))
  {
    BestExists(t, Positions(answers));
    NoneHeard(answers);
    EnoughIsAll(t, failed, answers);
  }

  /** So it is after every run. */
  lemma FailoverChoosesExactlyWhen(w: World, es: seq<Event>)
    requires Before(w)
    ensures var answers := Run(w, es).answers;
            Pick(w.topology, w.failed, Positions(answers)).Some?
            <==> if w.topology.mode == SyncStrict then AllHeard(w.topology, w.failed, answers) else exists id :: Heard(answers, id)
  {
    RunKeepsInv(w, es);
    ChosenExactlyWhen(w.topology, w.failed, Run(w, es).answers);
  }

  /** The WAL in an answer that was heard reaches the position. */
  predicate ReachesTo(a: Answer, lsn: nat) {
    a.status.Some? && (lsn <= a.status.value.received || lsn <= a.status.value.replayed)
  }

  /** The answer reaches to `lsn` and no further, nor does the other, which has no higher priority if it reaches as far. */
  predicate Leads(t: Topology, a: Answer, lsn: nat, other: Answer) {
    && ReachesTo(a, lsn) && !ReachesTo(a, lsn + 1) && !ReachesTo(other, lsn + 1)
    && a.id in t.configs && other.id in t.configs
    && (ReachesTo(other, lsn) ==> t.configs[other.id].priority <= t.configs[a.id].priority)
  }

  lemma BestLeads(t: Topology, answers: seq<Answer>, other: Answer) returns (a: Answer)
    requires OneEach(answers) && forall x <- answers :: x.id in t.configs
    requires other in answers && PositionIn(other).Some?
    ensures Best(t, Positions(answers)).Some?
    ensures var best := Best(t, Positions(answers)).value;
            a in answers && PositionIn(a) == Some(best) && Leads(t, a, best.lsn, other)
  {
    AnswerIsPositioned(answers, other);
    var ps := Positions(answers);
    var k := BestIsGreatest(t, ps);
    a := AnswerWith(answers, ps[k]);
    var i :| 0 <= i < |ps| && ps[i] == PositionIn(other).value;
    FurtherLeads(t, a, other);
  }

  lemma AnswerWith(answers: seq<Answer>, p: Position) returns (a: Answer)
    requires OneEach(answers) && p in Positions(answers)
    ensures a in answers && PositionIn(a) == Some(p)
  {
    PositionsAre(answers);
    a :| a in answers && PositionIn(a) == Some(p);
  }

  lemma FurtherLeads(t: Topology, a: Answer, other: Answer)
    requires PositionIn(a).Some? && PositionIn(other).Some? && a.id in t.configs && other.id in t.configs
    requires AtMost(t, PositionIn(other).value, PositionIn(a).value)
    ensures Leads(t, a, PositionIn(a).value.lsn, other)
  {
  }

  /**
  The node chosen was heard, and its WAL reaches as far as that of every node that was heard.
  Where another reaches as far, the priority configured for it is no higher.
  */
  lemma FurthestIsChosen(w: World, es: seq<Event>, other: Answer)
    requires Before(w) && other in Run(w, es).answers && Heard([other], other.id)
    requires Pick(w.topology, w.failed, Positions(Run(w, es).answers)).Some?
    ensures var chosen := Pick(w.topology, w.failed, Positions(Run(w, es).answers)).value;
            && (exists a <- Run(w, es).answers :: Heard([a], chosen.id) && Leads(w.topology, a, chosen.lsn, other))
            && chosen.id in w.topology.roles && w.topology.roles[chosen.id] == Replica && chosen.id != w.failed
  {
    RunKeepsInv(w, es);
    var a := BestLeads(w.topology, Run(w, es).answers, other);
    assert a in [a];
  }

  lemma {:induction false} AnswerIsPositioned(answers: seq<Answer>, a: Answer)
    requires a in answers && PositionIn(a).Some?
    ensures PositionIn(a).value in Positions(answers)
  {
    var m := |answers| - 1;
    if a in answers[..m] {
      AnswerIsPositioned(answers[..m], a);
    }
  }

  lemma {:induction false} AnswersGrow(w: World, es: seq<Event>)
    ensures w.answers <= Run(w, es).answers
  {
    if es != [] {
      AnswersGrow(w, es[..|es| - 1]);
    }
  }

  lemma {:induction false} RunConcat(w: World, es: seq<Event>, more: seq<Event>)
    ensures Run(w, es + more) == Run(Run(w, es), more)
  {
    if more == [] {
      assert es + more == es;
    } else {
      RunConcat(w, es, more[..|more| - 1]);
      assert (es + more)[..|es + more| - 1] == es + more[..|more| - 1];
    }
  }

  /** Under `sync_strict`, once the answer of one standby is lost no choice is made, whatever else is heard. */
  lemma LostAnswerBlocksStrict(w: World, id: NodeId, more: seq<Event>)
    requires Before(w) && w.topology.mode == SyncStrict && id in Asked(w.topology, w.failed) && id in w.standbys
    ensures Pick(w.topology, w.failed, Positions(Run(w, [Reply(id, false)] + more).answers)).None?
  {
    var lost := Run(w, [Reply(id, false)]);
    assert lost == Next(Run(w, []), Reply(id, false));
    RunConcat(w, [Reply(id, false)], more);
    AnswersGrow(lost, more);
    FailoverChoosesExactlyWhen(w, [Reply(id, false)] + more);
    var answers := Run(lost, more).answers;
    RunKeepsInv(w, [Reply(id, false)] + more);
    assert answers[0] == Answer(id, None);
    assert !Heard(answers, id);
  }

  /** A standby that a failover counts on: a replica that runs and is in recovery. */
  predicate Healthy(w: World, id: NodeId) {
    && id in w.topology.configs && id != w.failed && !w.topology.configs[id].external
    && id in w.topology.roles && w.topology.roles[id] == Replica
    && id in w.standbys && w.standbys[id].running && w.standbys[id].inRecovery
  }

  lemma {:induction false} HealthyAreHeard(w: World, ids: set<NodeId>) returns (es: seq<Event>)
    requires w.answers == [] && forall id <- ids :: Healthy(w, id)
    ensures forall id <- ids :: Heard(Run(w, es).answers, id)
    ensures Run(w, es) == w.(answers := Run(w, es).answers) && forall a <- Run(w, es).answers :: a.id in ids
    decreases ids
  {
    es := [];
    if ids != {} {
      var id :| id in ids;
      es := HealthyAreHeard(w, ids - {id});
      var before := Run(w, es);
      var answer := Answer(id, Some(w.standbys[id]));
      assert Run(w, es + [Reply(id, true)]) == before.(answers := before.answers + [answer]) by {
        assert (es + [Reply(id, true)])[..|es|] == es;
      }
      es := es + [Reply(id, true)];
      assert answer in Run(w, es).answers;
      forall other <- ids - {id}
        ensures Heard(Run(w, es).answers, other)
      {
        var a :| a in before.answers && a.id == other && a.status.Some? && a.status.value.running && a.status.value.inRecovery;
        assert a in Run(w, es).answers;
      }
    }
  }

  /** In every mode, a cluster whose standbys are all healthy, and at least one, can fail over. */
  lemma HealthyClusterFailsOver(w: World) returns (es: seq<Event>)
    requires Before(w) && Standbys(w.topology, w.failed) != {}
    requires forall id <- Standbys(w.topology, w.failed) :: Healthy(w, id)
    ensures Pick(w.topology, w.failed, Positions(Run(w, es).answers)).Some?
  {
    es := HealthyAreHeard(w, Standbys(w.topology, w.failed));
    FailoverChoosesExactlyWhen(w, es);
    var id :| id in Standbys(w.topology, w.failed);
    assert Heard(Run(w, es).answers, id);
  }

  // ---- The methods ----

  /** Ask the standbys, and collect the positions in the answers as they come. */
  method LivePositions(t: Topology, failed: NodeId, answers: seq<Answer>) returns (positions: seq<Position>)
    requires forall a <- answers :: a.id in Asked(t, failed)
    ensures positions == Positions(answers)
  {
    positions := [];
    var i := 0;
    while i < |answers|
      invariant i <= |answers| && positions == Positions(answers[..i])
    {
      assert answers[..i + 1][..i] == answers[..i];
      var p := PositionIn(answers[i]);
      if p.Some? {
        positions := positions + [p.value];
      }
      i := i + 1;
    }
    assert answers[..i] == answers;
  }

  /** The nodes to ask: replicas with a configuration, other than the failed node and external ones. */
  method NodesToAsk(t: Topology, failed: NodeId) returns (asked: set<NodeId>)
    ensures asked == Asked(t, failed)
    ensures forall id <- asked :: id in t.roles && t.roles[id] == Replica && id != failed
    ensures forall id <- t.roles | t.roles[id] == Replica && id != failed :: id in asked <==> id in t.configs && !t.configs[id].external
  {
    asked := {};
    var todo := t.roles.Keys;
    while todo != {}
      invariant todo <= t.roles.Keys
      invariant asked == Asked(t, failed) - todo
      decreases todo
    {
      var id :| id in todo;
      if id != failed && t.roles[id] == Replica && id in t.configs && !t.configs[id].external {
        asked := asked + {id};
      }
      todo := todo - {id};
    }
  }

  method PickLiveCandidate(t: Topology, failed: NodeId, answers: seq<Answer>) returns (chosen: Option<Position>)
    requires forall a <- answers :: a.id in Asked(t, failed)
    ensures chosen == Pick(t, failed, Positions(answers))
    ensures chosen.Some? ==> exists k: nat :: IsBest(t, Positions(answers), k) && Positions(answers)[k] == chosen.value
    ensures OneEach(answers) ==>
              (chosen.Some? <==> if t.mode == SyncStrict then AllHeard(t, failed, answers) else exists id :: Heard(answers, id))
  {
    if OneEach(answers) {
      ChosenExactlyWhen(t, failed, answers);
    }
    var positions := LivePositions(t, failed, answers);
    if t.mode == SyncStrict && |positions| < |Standbys(t, failed)| {
      return None;
    }
    chosen := Best(t, positions);
    if positions != [] {
      var k := BestIsGreatest(t, positions);
    }
  }
}
