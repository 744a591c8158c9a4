/**
Rotation of a database's internal passwords: every node learns the passwords to
come, a task moves the roles on the primary one at a time, and then the new
passwords become the current ones.

Passwords are generated in batches, one password for each role, so a batch number
and a role name a password. `steady` holds nodes never excused as offline.
*/
module Passwords {
  import opened Common
  import opened Operations
  import opened Generations

  type Batch = nat
  type TaskId = nat
  type RunId = nat

  datatype Role = Replication | Auth | Superuser

  /** The order in which the task alters the roles. */
  const ALTER_ORDER: seq<Role> := [Replication, Auth, Superuser]

  /** The batch each role's password is from, in Postgres. */
  datatype Roles = Roles(replication: Batch, auth: Batch, superuser: Batch)

  /** What a host is sent: passwords, and the id of the task if it is pending. */
  datatype Snapshot = Snapshot(gen: nat, current: Batch, next: Option<Batch>, task: Option<TaskId>)

  datatype Node = Node(desired: Snapshot, applied: Snapshot, reported: Reported)

  /** One execution of a task, which alters roles one by one and may die at any point. */
  datatype TaskRun = TaskRun(task: TaskId, batch: Batch, altered: nat)

  datatype TaskStatus = TaskPending | TaskSucceeded | TaskFailed

  datatype Db = Db(
    current: Batch, next: Option<Batch>, generation: nat,
    step: Option<nat>, target: nat,
    taskId: TaskId, task: Option<TaskStatus>,   // the task of the latest rotation
    nextBatch: Batch,
    since: nat,                                 // the generation that published these passwords
    altering: bool)                             // the task has been made for the passwords to come

  datatype World = World(
    db: Db, nodes: map<NodeId, Node>, offline: set<NodeId>, steady: set<NodeId>,
    roles: Roles, runs: map<RunId, TaskRun>)

  datatype NodeEvent = Fetch | Apply | Report(running: bool)

  datatype Event =
    | Start
    | RunStep
    | FailOp
    | Publish
    | Join(id: NodeId, steady: bool)  // a replacement adds a node
    | Leave(id: NodeId)               // and drops one
    | SetOffline(ids: set<NodeId>)
    | AtNode(id: NodeId, act: NodeEvent)
    | BeginRun(run: RunId, at: NodeId)
    | AlterOne(run: RunId)
    | Answer(run: RunId, success: bool)
    | Die(run: RunId)

  function PasswordOf(r: Roles, role: Role): Batch {
    match role
    case Replication => r.replication
    case Auth => r.auth
    case Superuser => r.superuser
  }

  function Altered(r: Roles, role: Role, batch: Batch): Roles {
    match role
    case Replication => r.(replication := batch)
    case Auth => r.(auth := batch)
    case Superuser => r.(superuser := batch)
  }

  /** The batches a node can log in with. */
  function Known(s: Snapshot): set<Batch> {
    {s.current} + if s.next.Some? then {s.next.value} else {}
  }

  // ---- The steps of the operation ----

  function Raised(d: Db): Db {
    d.(generation := d.generation + 1, target := d.generation + 1, since := d.generation + 1)
  }

  function Reports(nodes: map<NodeId, Node>): map<NodeId, Reported> {
    map id | id in nodes :: nodes[id].reported
  }

  predicate Waited(w: World) {
    AllApplied(Reports(w.nodes), w.offline, w.db.target)
  }

  function Offered(d: Db): Db {
    Raised(d.(next := Some(d.nextBatch), nextBatch := d.nextBatch + 1, altering := false))
  }

  function Moved(d: Db): Db {
    if d.next.Some? then Raised(d.(current := d.next.value, next := None, altering := false)) else d
  }

  function RunNamed(w: World, name: StepName, next: Option<nat>): World {
    match name
    case PasswordsOffer => w.(db := Offered(w.db).(step := next))
    case PasswordsAlter =>
      (match w.db.task
       case None => w.(db := w.db.(task := Some(TaskPending), altering := true))
       case Some(TaskPending) => w
       case Some(TaskSucceeded) => w.(db := w.db.(step := next))
       case Some(TaskFailed) => w.(db := w.db.(step := None)))
    case PasswordsCommit => if w.db.next.Some? then w.(db := Moved(w.db).(step := next)) else w
    case WaitApplied => if Waited(w) then w.(db := w.db.(step := next)) else w
    case _ => w.(db := w.db.(step := next))
  }

  // ---- The nodes and the task ----

  function Current(d: Db): Snapshot {
    Snapshot(d.generation, d.current, d.next, if d.task == Some(TaskPending) then Some(d.taskId) else None)
  }

  function NodeNext(d: Db, n: Node, act: NodeEvent): Node {
    match act
    case Fetch => n.(desired := Current(d))
    case Apply => n.(applied := n.desired)
    case Report(running) => n.(reported := Reported(n.applied.gen, running))
  }

  /** The execution has roles left to alter. */
  predicate Unfinished(run: TaskRun) {
    run.altered < |ALTER_ORDER|
  }

  // ---- Both together ----

  function Started(w: World): World {
    w.(db := w.db.(step := Some(0), target := w.db.generation, taskId := w.db.taskId + 1, task := None))
  }

  /** Every role has its current password, and nothing is left that would alter one. */
  predicate SafeToStart(w: World) {
    && (forall role :: PasswordOf(w.roles, role) == w.db.current)
    && (forall run <- w.runs :: !Unfinished(w.runs[run]))
    && (forall id <- w.nodes :: w.nodes[id].desired.task.None?)
  }

  /** A node that joins has the passwords its host first read. */
  function Joined(w: World, id: NodeId, steady: bool): World {
    var d := w.db.(generation := w.db.generation + 1);
    w.(db := d, nodes := w.nodes[id := Node(Current(d), Current(d), Reported(0, false))],
       offline := w.offline - {id}, steady := if steady then w.steady + {id} else w.steady)
  }

  function Next(w: World, e: Event): World {
    match e
    case Start => if w.db.step.None? && SafeToStart(w) then Started(w) else w
    case RunStep =>
      if w.db.step.Some? && w.db.step.value < |Steps(RotatePasswords)| then
        RunNamed(w, Steps(RotatePasswords)[w.db.step.value], StepAfter(RotatePasswords, w.db.step.value))
      else w
    case FailOp =>
      w.(db := w.db.(step := None, task := if w.db.task == Some(TaskPending) then Some(TaskFailed) else w.db.task))
    case Publish => w.(db := w.db.(generation := w.db.generation + 1))
    case Join(id, steady) => if w.db.step.None? && id !in w.nodes then Joined(w, id, steady) else w
    case Leave(id) =>
      if w.db.step.None? && w.steady - {id} != {} then w.(nodes := w.nodes - {id}, steady := w.steady - {id}) else w
    case SetOffline(ids) => w.(offline := ids - w.steady)
    case AtNode(id, act) =>
      if id in w.nodes then w.(nodes := w.nodes[id := NodeNext(w.db, w.nodes[id], act)]) else w
    case BeginRun(run, at) =>
      if run !in w.runs && at in w.nodes && w.nodes[at].desired.task.Some? && w.nodes[at].desired.next.Some? then
        var s := w.nodes[at].desired;
        w.(runs := w.runs[run := TaskRun(s.task.value, s.next.value, 0)])
      else w
    case AlterOne(run) =>
      if run in w.runs && Unfinished(w.runs[run]) then
        var r := w.runs[run];
        w.(roles := Altered(w.roles, ALTER_ORDER[r.altered], r.batch),
           runs := w.runs[run := r.(altered := r.altered + 1)])
      else w
    case Answer(run, success) =>
      if run in w.runs && (success ==> !Unfinished(w.runs[run])) then
        w.(runs := w.runs - {run},
           db := if w.runs[run].task == w.db.taskId && w.db.task == Some(TaskPending) then
                   w.db.(task := Some(if success then TaskSucceeded else TaskFailed))
                 else w.db)
      else w
    case Die(run) => w.(runs := w.runs - {run})
  }

  function Run(w: World, es: seq<Event>): World {
    if es == [] then w else Next(Run(w, es[..|es| - 1]), es[|es| - 1])
  }

  // ---- The wait ----

  /**
  A rotation waits at each of its `wait_applied` steps until every node that is not excused
  runs and has reported the target, and then goes on with the next step.
  */
  lemma WaitEndsExactlyWhen(w: World, k: nat)
    requires w.db.step == Some(k) && k < |Steps(RotatePasswords)| && Steps(RotatePasswords)[k] == WaitApplied
    ensures Next(w, RunStep)
         == if forall id <- w.nodes.Keys - w.offline ::
                 w.nodes[id].reported.running && w.db.target <= w.nodes[id].reported.generation
            then w.(db := w.db.(step := Some(k + 1)))
            else w
  {
    var reports := Reports(w.nodes);
    assert forall id <- w.nodes :: id in reports && reports[id] == w.nodes[id].reported;
  }

  /** One node that is down, or behind, holds the step. */
  lemma OneNodeHoldsTheStep(w: World, k: nat, id: NodeId)
    requires w.db.step == Some(k) && k < |Steps(RotatePasswords)| && Steps(RotatePasswords)[k] == WaitApplied
    requires id in w.nodes && id !in w.offline
    requires !w.nodes[id].reported.running || w.nodes[id].reported.generation < w.db.target
    ensures Next(w, RunStep) == w
  {
    WaitEndsExactlyWhen(w, k);
  }

  /** What an excused node has reported, if anything, makes no difference to the step. */
  lemma ExcusedNodeHoldsNothing(w: World, k: nat, id: NodeId, other: Reported)
    requires w.db.step == Some(k) && k < |Steps(RotatePasswords)| && Steps(RotatePasswords)[k] == WaitApplied
    requires id in w.nodes && id in w.offline
    ensures var w' := w.(nodes := w.nodes[id := w.nodes[id].(reported := other)]);
            Next(w', RunStep).db == Next(w, RunStep).db
  {
    WaitEndsExactlyWhen(w, k);
    WaitEndsExactlyWhen(w.(nodes := w.nodes[id := w.nodes[id].(reported := other)]), k);
  }

  // ---- The task's answer ----

  /** An execution of the present task that has altered every role. */
  predicate Finished(w: World, run: RunId) {
    run in w.runs && w.runs[run].task == w.db.taskId && !Unfinished(w.runs[run])
  }

  /**
  A pending task has succeeded exactly after an execution of it that altered every role says so, and
  has failed exactly after one says that, or after the operation ends. An answer, once there, stands
  until the next rotation starts.
  */
  lemma TaskAnsweredExactlyWhen(w: World, e: Event)
    requires w.db.task.Some? && !e.Start?
    ensures var task := Next(w, e).db.task;
            if w.db.task != Some(TaskPending) then task == w.db.task
            else
              && (task == Some(TaskSucceeded) <==> e.Answer? && e.success && Finished(w, e.run))
              && (task == Some(TaskFailed) <==>
                    e.FailOp? || (e.Answer? && !e.success && e.run in w.runs && w.runs[e.run].task == w.db.taskId))
  {
  }

  /** A rotation whose task failed ends at that step, and offers and passwords stay as they are. */
  lemma FailedTaskEndsTheRotation(w: World)
    requires w.db.step == Some(2) && w.db.task == Some(TaskFailed)
    ensures Next(w, RunStep) == w.(db := w.db.(step := None))
  {
    assert Steps(RotatePasswords)[2] == PasswordsAlter;
  }

  /** An execution that dies, or has said how it went, alters nothing more. */
  lemma EndedExecutionAltersNothing(w: World, e: Event, run: RunId)
    requires e == Die(run) || (e.Answer? && e.run == run && (run in w.runs && e.success ==> !Unfinished(w.runs[run])))
    ensures Next(Next(w, e), AlterOne(run)) == Next(w, e) && Next(w, e).roles == w.roles
  {
  }

  // ---- Nodes come and go ----

  /**
  A replacement adds a node that knows the current passwords at once and that later waits hold out for
  until it runs, and removes one. During a rotation, and for a node that is there, nothing happens.
  */
  lemma MembersComeAndGo(w: World, id: NodeId, steady: bool)
    requires w.steady - {id} != {}
    ensures var t := Next(w, Join(id, steady));
            if w.db.step.Some? || id in w.nodes then t == w
            else
              && t.nodes.Keys == w.nodes.Keys + {id} && (forall other <- w.nodes :: t.nodes[other] == w.nodes[other])
              && w.db.current in Known(t.nodes[id].applied) && id !in t.offline && !t.nodes[id].reported.running
              && t.db.generation > w.db.generation && t.steady == (if steady then w.steady + {id} else w.steady)
              && Next(t, Leave(id)).nodes == w.nodes && Next(t, Leave(id)).steady == w.steady - {id}
  {
  }

  /** Any node that is not steady can be excused, and no steady one is. */
  lemma ExcusedAre(w: World, ids: set<NodeId>, id: NodeId)
    ensures id in Next(w, SetOffline(ids)).offline <==> id in ids && id !in w.steady
  {
  }

  /** Another change to the database raises the generation, which no wait is for, and changes nothing else. */
  lemma OtherChangesAreNotWaitedFor(w: World)
    ensures var t := Next(w, Publish);
            t.db.generation > w.db.generation && t == w.(db := w.db.(generation := t.db.generation))
  {
  }

  /** The last step waits for nobody. */
  lemma LastStepEndsAtOnce(w: World)
    requires w.db.step == Some(5)
    ensures Next(w, RunStep) == w.(db := w.db.(step := None))
  {
    assert Steps(RotatePasswords)[5] == Settle;
  }

  // ---- Logging in ----

  /** Every steady node can log in as every role. */
  ghost predicate AllCanLogIn(w: World) {
    forall id, role | id in w.steady && id in w.nodes :: PasswordOf(w.roles, role) in Known(w.nodes[id].applied)
  }

  /** No rotation has run, so there is one batch everywhere and nothing under way. */
  predicate Settled(w: World) {
    && w.db.step.None? && w.db.next.None? && w.db.task.None? && w.db.since == 0 && !w.db.altering
    && w.db.current < w.db.nextBatch
    && w.offline !! w.steady
    && w.roles == Roles(w.db.current, w.db.current, w.db.current)
    && w.runs == map[]
    && forall id <- w.nodes ::
         && SettledSnapshot(w.nodes[id].desired, w.db)
         && SettledSnapshot(w.nodes[id].applied, w.db)
         && w.nodes[id].reported.generation <= w.nodes[id].applied.gen <= w.nodes[id].desired.gen
  }

  predicate SettledSnapshot(s: Snapshot, d: Db) {
    s == Snapshot(s.gen, d.current, None, None) && s.gen <= d.generation
  }

  // ---- The invariant ----

  /** The batch a task moves roles to, or moved them to. */
  function Hot(d: Db): Batch {
    if d.next.Some? then d.next.value else d.current
  }

  /** No role has moved away from the current passwords and nothing may move one. */
  predicate Cold(d: Db) {
    d.step == Some(0) || (d.next.Some? && !d.altering)
  }

  predicate DbOk(d: Db) {
    && d.since <= d.generation
    && d.current < d.nextBatch
    && (d.next.Some? ==> d.next.value < d.nextBatch && d.next.value != d.current)
    && (d.altering ==> d.next.Some?)
    && (d.task == Some(TaskPending) ==> d.altering && d.step == Some(2))
    && (d.step.Some? ==>
          match d.step.value
          case 0 => d.task.None?
          case 1 => d.next.Some? && d.target == d.since && d.task.None? && !d.altering
          case 2 => d.next.Some? && (d.altering <==> d.task.Some?)
          case 3 => d.next.Some? && d.altering
          case 4 | 5 => d.next.None?
          case _ => false)
  }

  predicate RolesOk(d: Db, roles: Roles) {
    && (forall role :: PasswordOf(roles, role) in {d.current, Hot(d)})
    && (Cold(d) ==> AllOn(roles, d.current))
    && (d.step == Some(3) || (d.step == Some(2) && d.task == Some(TaskSucceeded)) ==> AllOn(roles, Hot(d)))
  }

  predicate AllOn(roles: Roles, batch: Batch) {
    roles == Roles(batch, batch, batch)
  }

  /** The roles an execution has altered hold its batch. */
  predicate PrefixOn(roles: Roles, altered: nat, batch: Batch) {
    && (1 <= altered ==> roles.replication == batch)
    && (2 <= altered ==> roles.auth == batch)
    && (3 <= altered ==> roles.superuser == batch)
  }

  predicate RunOk(d: Db, roles: Roles, r: TaskRun) {
    && r.task <= d.taskId && r.altered <= 3
    && (Cold(d) ==> !Unfinished(r) && r.task < d.taskId)
    && (Unfinished(r) || r.task == d.taskId ==> r.batch == Hot(d))
    && (r.task == d.taskId ==> PrefixOn(roles, r.altered, Hot(d)))
  }

  /** A task a node still has on its list is for the batch the roles are moving to. */
  predicate ListOk(d: Db, n: Node) {
    n.desired.task.Some? ==> !Cold(d) && n.desired.task.value <= d.taskId && n.desired.next == Some(Hot(d))
  }

  predicate Knows(n: Node, batch: Batch) {
    batch in Known(n.applied) && batch in Known(n.desired)
  }

  predicate NodeOk(d: Db, n: Node) {
    && n.reported.generation <= n.applied.gen <= n.desired.gen <= d.generation
    && (d.since <= n.desired.gen ==> n.desired.current == d.current && n.desired.next == d.next)
    && (d.since <= n.applied.gen ==> n.applied.current == d.current && n.applied.next == d.next)
    && Knows(n, d.current)
    && (d.altering || d.step == Some(2) ==> Knows(n, Hot(d)))
  }

  ghost predicate Inv(w: World) {
    && DbOk(w.db) && RolesOk(w.db, w.roles)
    && w.offline !! w.steady
    && {} != w.steady <= w.nodes.Keys
    && (forall id <- w.nodes :: ListOk(w.db, w.nodes[id]))
    && (forall id <- w.steady :: NodeOk(w.db, w.nodes[id]))
    && (forall run <- w.runs :: RunOk(w.db, w.roles, w.runs[run]))
  }

  /** What a change of the database's row must keep for the invariant to survive it. */
  ghost predicate Carries(w: World, d: Db) {
    && DbOk(d) && RolesOk(d, w.roles)
    && (forall id <- w.nodes :: ListOk(d, w.nodes[id]))
    && (forall id | id in w.steady && id in w.nodes :: NodeOk(d, w.nodes[id]))
    && (forall run <- w.runs :: RunOk(d, w.roles, w.runs[run]))
  }

  lemma StartCarries(w: World)
    requires Inv(w) && w.db.step.None? && SafeToStart(w)
    ensures Carries(w, Started(w).db)
  {
    assert PasswordOf(w.roles, Replication) == PasswordOf(w.roles, Auth) == PasswordOf(w.roles, Superuser) == w.db.current;
    forall run <- w.runs
      ensures RunOk(Started(w).db, w.roles, w.runs[run])
    {
      assert RunOk(w.db, w.roles, w.runs[run]);
    }
  }

  lemma OfferCarries(w: World)
    requires Inv(w) && w.db.step == Some(0)
    ensures Carries(w, Offered(w.db).(step := Some(1)))
  {
  }

  lemma WaitCarries(w: World, k: nat)
    requires Inv(w) && w.db.step == Some(k) && k in {1, 4} && Waited(w)
    ensures Carries(w, w.db.(step := Some(k + 1)))
  {
    forall id <- w.steady
      ensures NodeOk(w.db.(step := Some(k + 1)), w.nodes[id])
    {
      assert NodeOk(w.db, w.nodes[id]);
      assert id in w.nodes && id !in w.offline;
    }
  }

  lemma TaskCarries(w: World)
    requires Inv(w) && w.db.step == Some(2)
    ensures w.db.task.None? ==> Carries(w, w.db.(task := Some(TaskPending), altering := true))
    ensures w.db.task == Some(TaskSucceeded) ==> Carries(w, w.db.(step := Some(3)))
  {
  }

  lemma CommitCarries(w: World)
    requires Inv(w) && w.db.step == Some(3)
    ensures Carries(w, Moved(w.db).(step := Some(4)))
  {
  }

  lemma EndCarries(w: World, task: Option<TaskStatus>)
    requires Inv(w) && task != Some(TaskPending)
    ensures Carries(w, w.db.(step := None, task := task))
  {
  }

  lemma PublishCarries(w: World)
    requires Inv(w)
    ensures Carries(w, w.db.(generation := w.db.generation + 1))
  {
  }

  lemma AnswerCarries(w: World, run: RunId, success: bool)
    requires Inv(w) && run in w.runs && (success ==> !Unfinished(w.runs[run]))
    requires w.runs[run].task == w.db.taskId && w.db.task == Some(TaskPending)
    ensures Carries(w, w.db.(task := Some(if success then TaskSucceeded else TaskFailed)))
  {
    assert RunOk(w.db, w.roles, w.runs[run]);
  }

  /** The step names, by position. */
  lemma StepNames(k: nat)
    requires k < |Steps(RotatePasswords)|
    ensures k <= 5
    ensures Steps(RotatePasswords)[k] == match k
                                         case 0 => PasswordsOffer
                                         case 2 => PasswordsAlter
                                         case 3 => PasswordsCommit
                                         case 5 => Settle
                                         case _ => WaitApplied
    ensures StepAfter(RotatePasswords, k) == if k == 5 then None else Some(k + 1)
  {
  }

  /** A step changes the database's row and nothing else. */
  lemma StepChangesDb(w: World, name: StepName, next: Option<nat>)
    ensures RunNamed(w, name, next) == w.(db := RunNamed(w, name, next).db)
  {
  }

  lemma AlterStepCarries(w: World, next: Option<nat>)
    requires Inv(w) && w.db.step == Some(2) && next == Some(3)
    ensures Carries(w, RunNamed(w, PasswordsAlter, next).db)
  {
    TaskCarries(w);
    EndCarries(w, Some(TaskFailed));
  }

  lemma WaitStepCarries(w: World, k: nat, next: Option<nat>)
    requires Inv(w) && w.db.step == Some(k) && k in {1, 4} && next == Some(k + 1)
    ensures Carries(w, RunNamed(w, WaitApplied, next).db)
  {
    if Waited(w) {
      WaitCarries(w, k);
    }
  }

  lemma OperationCarries(w: World, k: nat)
    requires Inv(w) && w.db.step == Some(k) && k < |Steps(RotatePasswords)|
    ensures Carries(w, RunNamed(w, Steps(RotatePasswords)[k], StepAfter(RotatePasswords, k)).db)
  {
    StepNames(k);
    if k == 0 {
      OfferCarries(w);
    } else if k == 2 {
      AlterStepCarries(w, StepAfter(RotatePasswords, k));
    } else if k == 3 {
      CommitCarries(w);
    } else if k == 5 {
      EndCarries(w, w.db.task);
    } else {
      WaitStepCarries(w, k, StepAfter(RotatePasswords, k));
    }
  }

  lemma OperationKeepsInv(w: World, k: nat)
    requires Inv(w) && w.db.step == Some(k) && k < |Steps(RotatePasswords)|
    ensures Inv(RunNamed(w, Steps(RotatePasswords)[k], StepAfter(RotatePasswords, k)))
  {
    OperationCarries(w, k);
    StepChangesDb(w, Steps(RotatePasswords)[k], StepAfter(RotatePasswords, k));
  }

  lemma NodeStepKeepsInv(w: World, id: NodeId, act: NodeEvent)
    requires Inv(w)
    ensures Inv(Next(w, AtNode(id, act)))
  {
    if id in w.nodes {
      assert ListOk(w.db, w.nodes[id]);
      assert id in w.steady ==> NodeOk(w.db, w.nodes[id]);
    }
  }

  /** One alteration keeps every execution's prefix, because all that matter alter to one batch. */
  lemma AlterKeepsInv(w: World, run: RunId)
    requires Inv(w)
    ensures Inv(Next(w, AlterOne(run)))
  {
    if run in w.runs && Unfinished(w.runs[run]) {
      assert RunOk(w.db, w.roles, w.runs[run]);
      var w' := Next(w, AlterOne(run));
      forall role
        ensures PasswordOf(w'.roles, role) in {w.db.current, Hot(w.db)}
      {
        assert PasswordOf(w.roles, role) in {w.db.current, Hot(w.db)};
      }
      forall other <- w'.runs
        ensures RunOk(w.db, w'.roles, w'.runs[other])
      {
        assert RunOk(w.db, w.roles, w.runs[other]);
      }
    }
  }

  lemma TaskStepKeepsInv(w: World, e: Event)
    requires Inv(w) && (e.BeginRun? || e.Answer? || e.Die?)
    ensures Inv(Next(w, e))
  {
    match e
    case BeginRun(run, at) =>
      if at in w.nodes {
        assert ListOk(w.db, w.nodes[at]);
      }
    case Answer(run, success) =>
      if run in w.runs && (success ==> !Unfinished(w.runs[run])) {
        if w.runs[run].task == w.db.taskId && w.db.task == Some(TaskPending) {
          AnswerCarries(w, run, success);
        }
      }
    case Die(run) =>
  }

  lemma JoinKeepsInv(w: World, id: NodeId, steady: bool)
    requires Inv(w) && w.db.step.None? && id !in w.nodes
    ensures Inv(Joined(w, id, steady))
  {
    PublishCarries(w);
    assert NodeOk(Joined(w, id, steady).db, Joined(w, id, steady).nodes[id]);
  }

  lemma LeaveKeepsInv(w: World, id: NodeId)
    requires Inv(w)
    ensures Inv(Next(w, Leave(id)))
  {
  }

  lemma StepKeepsInv(w: World, e: Event)
    requires Inv(w)
    ensures Inv(Next(w, e))
  {
    match e
    case Start =>
      if w.db.step.None? && SafeToStart(w) {
        StartCarries(w);
      }
    case RunStep =>
      if w.db.step.Some? && w.db.step.value < |Steps(RotatePasswords)| {
        OperationKeepsInv(w, w.db.step.value);
      }
    case FailOp => EndCarries(w, Next(w, e).db.task);
    case Publish => PublishCarries(w);
    case Join(id, steady) =>
      if w.db.step.None? && id !in w.nodes {
        JoinKeepsInv(w, id, steady);
      }
    case Leave(id) => LeaveKeepsInv(w, id);
    case SetOffline(ids) =>
    case AtNode(id, act) => NodeStepKeepsInv(w, id, act);
    case AlterOne(run) => AlterKeepsInv(w, run);
    case _ => TaskStepKeepsInv(w, e);
  }

  lemma {:induction false} RunKeepsInv(w: World, es: seq<Event>)
    requires Inv(w)
    ensures Inv(Run(w, es))
  {
    if es != [] {
      RunKeepsInv(w, es[..|es| - 1]);
      StepKeepsInv(Run(w, es[..|es| - 1]), es[|es| - 1]);
    }
  }

  lemma InvGivesLogin(w: World)
    requires Inv(w)
    ensures AllCanLogIn(w)
  {
    forall id, role | id in w.steady && id in w.nodes
      ensures PasswordOf(w.roles, role) in Known(w.nodes[id].applied)
    {
      assert NodeOk(w.db, w.nodes[id]);
      assert PasswordOf(w.roles, role) in {w.db.current, Hot(w.db)};
      if Cold(w.db) {
        assert AllOn(w.roles, w.db.current);
      }
    }
  }

  // ---- The theorems ----

  /**
  Through any number of rotations, at every moment and wherever executions of the task
  die, every steady node holds a working password for every role.
  */
  lemma NobodyLockedOut(w: World, es: seq<Event>)
    requires Settled(w) && {} != w.steady <= w.nodes.Keys
    ensures AllCanLogIn(Run(w, es))
  {
    RunKeepsInv(w, es);
    InvGivesLogin(Run(w, es));
  }

  /** The passwords become the current ones only once every role has them. */
  lemma CommitFindsRolesMoved(w: World, es: seq<Event>)
    requires Settled(w) && {} != w.steady <= w.nodes.Keys
    requires Run(w, es).db.step == Some(3)
    ensures var d := Run(w, es).db; d.next.Some? && AllOn(Run(w, es).roles, d.next.value)
    ensures var w' := Run(w, es + [RunStep]);
            && w'.db.next.None? && w'.db.current == Run(w, es).db.next.value
            && AllOn(w'.roles, w'.db.current)
  {
    RunKeepsInv(w, es);
    RunExtend(w, es, RunStep);
    CommitMoves(Run(w, es));
  }

  lemma CommitMoves(w: World)
    requires w.db.step == Some(3) && w.db.next.Some?
    ensures var w' := Next(w, RunStep);
            w'.db.next.None? && w'.db.current == w.db.next.value && w'.roles == w.roles
  {
    StepNames(3);
  }

  lemma RunExtend(w: World, es: seq<Event>, e: Event)
    ensures Run(w, es + [e]) == Next(Run(w, es), e)
  {
    assert (es + [e])[..|es|] == es;
  }

  lemma {:induction false} RunConcat(w: World, es: seq<Event>, more: seq<Event>)
    ensures Run(w, es + more) == Run(Run(w, es), more)
  {
    if more == [] {
      assert es + more == es;
    } else {
      var m := |more| - 1;
      assert (es + more)[..|es + more| - 1] == es + more[..m];
      RunConcat(w, es, more[..m]);
    }
  }

  // ---- When starting is safe ----

  /** No run from here leaves a steady node without a working password. */
  ghost predicate StaysLoggedIn(w: World) {
    forall more :: AllCanLogIn(Run(w, more))
  }

  /** Some run leads from one world to the other. */
  ghost predicate Reaches(w: World, w': World) {
    exists es :: Run(w, es) == w'
  }

  lemma ReachesSelf(w: World)
    ensures Reaches(w, w)
  {
    assert Run(w, []) == w;
  }

  lemma ReachesOn(w: World, w': World, e: Event) returns (w'': World)
    requires Reaches(w, w')
    ensures w'' == Next(w', e) && Reaches(w, w'')
  {
    var es :| Run(w, es) == w';
    RunExtend(w, es, e);
    w'' := Next(w', e);
  }

  lemma LosesLogin(w: World, w': World, id: NodeId, role: Role)
    requires Reaches(w, w')
    requires id in w'.steady && id in w'.nodes && PasswordOf(w'.roles, role) !in Known(w'.nodes[id].applied)
    ensures !StaysLoggedIn(w)
  {
    assert !AllCanLogIn(w');
    var es :| Run(w, es) == w';
  }

  /** A rotation just begun, before its first step. */
  predicate AtOffer(w: World, id: NodeId) {
    && w.db.step == Some(0) && w.db.task.None?
    && id in w.steady && w.steady <= w.nodes.Keys
    && w.db.current < w.db.nextBatch
    && (w.db.next.Some? ==> w.db.next.value < w.db.nextBatch && w.db.next.value != w.db.current)
  }

  /** The next step of the operation, and one of a node's. */
  lemma NextStep(w0: World, w: World, k: nat) returns (w': World)
    requires Reaches(w0, w) && w.db.step == Some(k) && k <= 3
    ensures Reaches(w0, w')
    ensures w' == w.(db := w'.db)
    ensures k == 0 ==> w'.db == Offered(w.db).(step := Some(1))
    ensures k == 1 && Waited(w) ==> w'.db == w.db.(step := Some(2))
    ensures k == 2 && w.db.task.None? ==> w'.db == w.db.(task := Some(TaskPending), altering := true)
    ensures k == 2 && w.db.task == Some(TaskSucceeded) ==> w'.db == w.db.(step := Some(3))
    ensures k == 3 && w.db.next.Some? ==> w'.db == Moved(w.db).(step := Some(4))
  {
    StepNames(k);
    StepChangesDb(w, Steps(RotatePasswords)[k], StepAfter(RotatePasswords, k));
    w' := ReachesOn(w0, w, RunStep);
  }

  lemma NodeActs(w0: World, w: World, id: NodeId, act: NodeEvent) returns (w': World)
    requires Reaches(w0, w) && id in w.nodes
    ensures Reaches(w0, w') && w' == w.(nodes := w.nodes[id := NodeNext(w.db, w.nodes[id], act)])
  {
    w' := ReachesOn(w0, w, AtNode(id, act));
  }

  /** The offer is made and one node has it in place: it knows the current batch and the new one only. */
  lemma OfferReaches(w: World, id: NodeId) returns (w': World)
    requires AtOffer(w, id)
    ensures Reaches(w, w')
    ensures w'.steady == w.steady && id in w'.nodes && w'.roles == w.roles && w'.runs == w.runs
    ensures Known(w'.nodes[id].applied) == {w.db.current, w.db.nextBatch}
  {
    ReachesSelf(w);
    w' := NextStep(w, w, 0);
    w' := NodeActs(w, w', id, Fetch);
    w' := NodeActs(w, w', id, Apply);
  }

  lemma MovedRoleIsUnsafe(w: World, id: NodeId, role: Role)
    requires AtOffer(w, id) && PasswordOf(w.roles, role) !in {w.db.current, w.db.nextBatch}
    ensures !StaysLoggedIn(w)
  {
    var w' := OfferReaches(w, id);
    LosesLogin(w, w', id, role);
  }

  lemma LeftoverOfferIsUnsafe(w: World, id: NodeId, run: RunId)
    requires AtOffer(w, id) && w.db.next.Some?
    requires run in w.runs && Unfinished(w.runs[run]) && w.runs[run].batch == w.db.next.value
    ensures !StaysLoggedIn(w)
  {
    var w' := OfferReaches(w, id);
    w' := ReachesOn(w, w', AlterOne(run));
    LosesLogin(w, w', id, ALTER_ORDER[w.runs[run].altered]);
  }

  // ---- A whole rotation overtakes an execution of an earlier one ----

  /** Only nodes changed, and none came or went. */
  predicate SameButNodes(w: World, w': World) {
    w' == w.(nodes := w'.nodes) && w'.nodes.Keys == w.nodes.Keys
  }

  lemma {:induction false} AllCatchUp(w0: World, w: World, ids: set<NodeId>) returns (w': World)
    requires Reaches(w0, w) && ids <= w.nodes.Keys
    ensures Reaches(w0, w') && SameButNodes(w, w')
    ensures forall id <- ids :: w'.nodes[id].reported == Reported(w.db.generation, true)
    ensures forall id <- ids :: Known(w'.nodes[id].applied) == Known(Current(w.db))
    decreases ids
  {
    w' := w;
    if ids != {} {
      var id :| id in ids;
      w' := AllCatchUp(w0, w, ids - {id});
      w' := NodeActs(w0, w', id, Fetch);
      w' := NodeActs(w0, w', id, Apply);
      w' := NodeActs(w0, w', id, Report(true));
    }
  }

  /** A rotation under way, with no more done than making the offer and the task. */
  predicate Under(w: World, w': World) {
    && w'.steady == w.steady && w'.nodes.Keys == w.nodes.Keys && w'.runs == w.runs
    && w'.db.next == Some(w.db.nextBatch)
  }

  lemma ReachesTask(w0: World, w: World, id: NodeId) returns (w': World)
    requires Reaches(w0, w) && AtOffer(w, id)
    ensures Reaches(w0, w') && Under(w, w') && w'.db.step == Some(2) && w'.db.task == Some(TaskPending)
  {
    w' := NextStep(w0, w, 0);
    w' := ReachesOn(w0, w', SetOffline(w.nodes.Keys));
    w' := AllCatchUp(w0, w', w.steady);
    assert Waited(w');
    w' := NextStep(w0, w', 1);
    w' := NextStep(w0, w', 2);
  }

  /** A node takes the task up and sees it through. */
  lemma ReachesSuccess(w0: World, w: World, id: NodeId, run: RunId) returns (w': World)
    requires Reaches(w0, w) && w.db.step == Some(2) && w.db.task == Some(TaskPending) && w.db.next.Some?
    requires id in w.nodes && run !in w.runs
    ensures Reaches(w0, w')
    ensures w'.runs == w.runs && w'.steady == w.steady && w'.nodes.Keys == w.nodes.Keys
    ensures w'.db == w.db.(task := Some(TaskSucceeded))
  {
    w' := NodeActs(w0, w, id, Fetch);
    w' := ReachesOn(w0, w', BeginRun(run, id));
    w' := Altering(w0, w', run);
    w' := Altering(w0, w', run);
    w' := Altering(w0, w', run);
    assert w'.runs == w.runs[run := TaskRun(w.db.taskId, w.db.next.value, 3)];
    w' := ReachesOn(w0, w', Answer(run, true));
  }

  lemma Altering(w0: World, w: World, run: RunId) returns (w': World)
    requires Reaches(w0, w) && run in w.runs && Unfinished(w.runs[run])
    ensures Reaches(w0, w')
    ensures w' == w.(roles := w'.roles, runs := w.runs[run := w.runs[run].(altered := w.runs[run].altered + 1)])
  {
    w' := ReachesOn(w0, w, AlterOne(run));
  }

  lemma ReachesCommit(w0: World, w: World, id: NodeId) returns (w': World)
    requires Reaches(w0, w) && id in w.nodes
    requires w.db.step == Some(2) && w.db.task == Some(TaskSucceeded) && w.db.next.Some?
    ensures Reaches(w0, w')
    ensures w'.runs == w.runs && w'.steady == w.steady && id in w'.nodes
    ensures Known(w'.nodes[id].applied) == {w.db.next.value}
  {
    w' := NextStep(w0, w, 2);
    w' := NextStep(w0, w', 3);
    w' := NodeActs(w0, w', id, Fetch);
    w' := NodeActs(w0, w', id, Apply);
  }

  /** A number above every one in a set. */
  lemma {:induction false} Above(ids: set<RunId>) returns (top: RunId)
    ensures forall id <- ids :: id < top
  {
    top := 0;
    if ids != {} {
      var id :| id in ids;
      var rest := Above(ids - {id});
      top := if id < rest then rest else id + 1;
      assert forall other <- ids :: other == id || other in ids - {id};
    }
  }

  lemma LeftoverTaskIsUnsafe(w: World, id: NodeId, run: RunId)
    requires AtOffer(w, id)
    requires run in w.runs && Unfinished(w.runs[run]) && w.runs[run].batch == w.db.current
    ensures !StaysLoggedIn(w)
  {
    ReachesSelf(w);
    var w' := ReachesTask(w, w, id);
    var unused := Above(w'.runs.Keys);
    w' := ReachesSuccess(w, w', id, unused);
    w' := ReachesCommit(w, w', id);
    w' := ReachesOn(w, w', AlterOne(run));
    LosesLogin(w, w', id, ALTER_ORDER[w.runs[run].altered]);
  }

  lemma LeftoverIsUnsafe(w: World, id: NodeId, run: RunId)
    requires AtOffer(w, id) && run in w.runs && Unfinished(w.runs[run]) && w.runs[run].batch == Hot(w.db)
    ensures !StaysLoggedIn(w)
  {
    if w.db.next.Some? {
      LeftoverOfferIsUnsafe(w, id, run);
    } else {
      LeftoverTaskIsUnsafe(w, id, run);
    }
  }

  /** A node that still has the task on its list can begin it. */
  lemma ListedTaskIsUnsafe(w: World, id: NodeId, at: NodeId)
    requires AtOffer(w, id) && at in w.nodes
    requires w.nodes[at].desired.task.Some? && w.nodes[at].desired.next == Some(Hot(w.db))
    ensures !StaysLoggedIn(w)
  {
    var run := Above(w.runs.Keys);
    var begun := Next(w, BeginRun(run, at));
    LeftoverIsUnsafe(begun, id, run);
    var more :| !AllCanLogIn(Run(begun, more));
    RunConcat(w, [BeginRun(run, at)], more);
    assert Run(w, [BeginRun(run, at)]) == begun;
  }

  lemma UnsafeStart(w: World)
    requires Inv(w) && w.db.step.None? && !SafeToStart(w)
    ensures !StaysLoggedIn(Started(w))
  {
    var id :| id in w.steady;
    var w0 := Started(w);
    if role :| PasswordOf(w.roles, role) != w.db.current {
      assert PasswordOf(w.roles, role) in {w.db.current, Hot(w.db)};
      MovedRoleIsUnsafe(w0, id, role);
    } else if run :| run in w.runs && Unfinished(w.runs[run]) {
      assert RunOk(w.db, w.roles, w.runs[run]);
      LeftoverIsUnsafe(w0, id, run);
    } else {
      var at :| at in w.nodes && w.nodes[at].desired.task.Some?;
      assert ListOk(w.db, w.nodes[at]);
      ListedTaskIsUnsafe(w0, id, at);
    }
  }

  /**
  The operation checks nothing before it starts. Starting it where the last one ended
  keeps every steady node logged in exactly when every role is on the current
  passwords and nothing of the last task is left: no execution part way, no list that
  still names it.
  */
  lemma StartingIsSafeExactlyWhen(w: World, es: seq<Event>)
    requires Settled(w) && {} != w.steady <= w.nodes.Keys
    requires Run(w, es).db.step.None?
    ensures StaysLoggedIn(Started(Run(w, es))) <==> SafeToStart(Run(w, es))
  {
    RunKeepsInv(w, es);
    var w' := Run(w, es);
    if SafeToStart(w') {
      StartCarries(w');
      forall more
        ensures AllCanLogIn(Run(Started(w'), more))
      {
        RunKeepsInv(Started(w'), more);
        InvGivesLogin(Run(Started(w'), more));
      }
    } else {
      UnsafeStart(w');
    }
  }

  /** A rotation that fails with its task still being executed leaves a state from which the next is unsafe. */
  lemma FailedRotationBlocksTheNext(w: World) returns (w': World)
    requires Settled(w) && {} != w.steady <= w.nodes.Keys
    ensures Reaches(w, w') && w'.db.step.None? && !SafeToStart(w') && !StaysLoggedIn(Started(w'))
  {
    var id :| id in w.steady;
    ReachesSelf(w);
    w' := ReachesOn(w, w, Start);
    w' := ReachesTask(w, w', id);
    w' := NodeActs(w, w', id, Fetch);
    w' := ReachesOn(w, w', BeginRun(0, id));
    w' := ReachesOn(w, w', FailOp);
    assert Unfinished(w'.runs[0]);
    var es :| Run(w, es) == w';
    StartingIsSafeExactlyWhen(w, es);
  }

  /** From every settled state a rotation can be seen through: every role is then on the new passwords, and nodes know no other. */
  lemma RotationCanFinish(w: World) returns (w': World)
    requires Settled(w) && {} != w.steady <= w.nodes.Keys
    ensures Reaches(w, w')
    ensures w'.db.step.None? && w'.db.current == w.db.nextBatch && w'.db.next.None? && AllOn(w'.roles, w.db.nextBatch)
    ensures forall id <- w.nodes :: id in w'.nodes && Known(w'.nodes[id].applied) == {w.db.nextBatch}
  {
    var id :| id in w.steady;
    ReachesSelf(w);
    w' := ReachesOn(w, w, Start);
    w' := ReachesTask(w, w', id);
    var run := Above(w'.runs.Keys);
    w' := ReachesSuccess(w, w', id, run);
    w' := NextStep(w, w', 2);
    var es :| Run(w, es) == w';
    CommitFindsRolesMoved(w, es);
    RunExtend(w, es, RunStep);
    w' := NextStep(w, w', 3);
    w' := AllCatchUp(w, w', w'.nodes.Keys);
    w' := LastSteps(w, w');
  }

  /** The wait and the last step of a rotation. */
  lemma LastSteps(w0: World, w: World) returns (w': World)
    requires Reaches(w0, w) && w.db.step == Some(4)
    requires forall id <- w.nodes :: w.nodes[id].reported.running && w.db.target <= w.nodes[id].reported.generation
    ensures Reaches(w0, w') && w' == w.(db := w.db.(step := None))
  {
    assert Steps(RotatePasswords)[4] == WaitApplied && Steps(RotatePasswords)[5] == Settle;
    WaitEndsExactlyWhen(w, 4);
    w' := ReachesOn(w0, w, RunStep);
    w' := ReachesOn(w0, w', RunStep);
  }

  // ---- The rows and the server ----

  /** The events of an execution that alters `n` roles. */
  function Alterations(run: RunId, n: nat): seq<Event> {
    seq(n, _ => AlterOne(run))
  }

  lemma AlterationsExtend(w: World, run: RunId, n: nat)
    ensures Run(w, Alterations(run, n + 1)) == Next(Run(w, Alterations(run, n)), AlterOne(run))
  {
    RunExtend(w, Alterations(run, n), AlterOne(run));
    assert Alterations(run, n + 1) == Alterations(run, n) + [AlterOne(run)];
  }

  class Cluster {
    var db: Db
    var nodes: map<NodeId, Node>
    var offline: set<NodeId>
    var roles: Roles
    var runs: map<RunId, TaskRun>
    ghost var steady: set<NodeId>

    ghost function State(): World
      reads this
    {
      World(db, nodes, offline, steady, roles, runs)
    }

    constructor (db: Db, nodes: map<NodeId, Node>, roles: Roles, ghost steady: set<NodeId>)
      ensures State() == World(db, nodes, {}, steady, roles, map[])
    {
      this.db, this.nodes, this.offline, this.steady := db, nodes, {}, steady;
      this.roles, this.runs := roles, map[];
    }

    /** The secrets are stored and a new generation publishes them. */
    method StoreSecrets(current: Batch, next: Option<Batch>)
      modifies this`db
      ensures db == Raised(old(db).(current := current, next := next, altering := false))
    {
      db := db.(current := current, next := next, altering := false);
      db := db.(generation := db.generation + 1);
      db := db.(target := db.generation, since := db.generation);
    }

    /** Make the task the first time, then wait for what it came to. */
    method RunTask(next: Option<nat>)
      modifies this`db
      ensures State() == RunNamed(old(State()), PasswordsAlter, next)
    {
      match db.task {
        case None => db := db.(task := Some(TaskPending), altering := true);
        case Some(TaskPending) =>
        case Some(TaskSucceeded) => db := db.(step := next);
        case Some(TaskFailed) => db := db.(step := None);
      }
    }

    method DoStep(name: StepName, next: Option<nat>)
      modifies this`db
      ensures State() == RunNamed(old(State()), name, next)
    {
      match name {
        case PasswordsOffer =>
          var batch := db.nextBatch;
          db := db.(nextBatch := batch + 1);
          StoreSecrets(db.current, Some(batch));
          db := db.(step := next);
        case PasswordsAlter => RunTask(next);
        case PasswordsCommit =>
          if db.next.Some? {
            StoreSecrets(db.next.value, None);
            db := db.(step := next);
          }
        case WaitApplied =>
          var done := WaitedFor(Reports(nodes), offline, db.target);
          if done {
            db := db.(step := next);
          }
        case _ => db := db.(step := next);
      }
    }

    method Step()
      modifies this`db
      ensures State() == Next(old(State()), RunStep)
    {
      if db.step.Some? && db.step.value < |Steps(RotatePasswords)| {
        DoStep(Steps(RotatePasswords)[db.step.value], StepAfter(RotatePasswords, db.step.value));
      }
    }

    method AlterNext(run: RunId)
      requires run in runs && Unfinished(runs[run])
      modifies this`roles, this`runs
      ensures State() == Next(old(State()), AlterOne(run))
      ensures run in runs && runs[run].altered == old(runs[run].altered) + 1
    {
      var r := runs[run];
      roles := Altered(roles, ALTER_ORDER[r.altered], r.batch);
      runs := runs[run := r.(altered := r.altered + 1)];
    }

    /** One execution of the task: a statement for each role, stopping where one of them fails. */
    method AlterPasswords(run: RunId, fails: set<Role>) returns (altered: nat)
      requires run in runs && runs[run].altered == 0
      modifies this`roles, this`runs
      ensures altered <= |ALTER_ORDER|
      ensures forall i | 0 <= i < altered :: ALTER_ORDER[i] !in fails
      ensures altered < |ALTER_ORDER| ==> ALTER_ORDER[altered] in fails
      ensures State() == Run(old(State()), Alterations(run, altered))
    {
      altered := 0;
      assert Alterations(run, 0) == [];
      while altered < |ALTER_ORDER| && ALTER_ORDER[altered] !in fails
        invariant altered <= |ALTER_ORDER|
        invariant forall i | 0 <= i < altered :: ALTER_ORDER[i] !in fails
        invariant run in runs && runs[run].altered == altered
        invariant State() == Run(old(State()), Alterations(run, altered))
      {
        AlterationsExtend(old(State()), run, altered);
        AlterNext(run);
        altered := altered + 1;
      }
    }
  }
}
