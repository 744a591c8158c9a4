/**
The operation engine: operations as stored steps, claimed by any number of
reconcilers, ended early by a delete, and waiting on tasks that hosts report.

A committed transaction is one event. A claim and the commit that ends it are two,
because other transactions commit in between. `Run` replays any list of events.
*/
module Engine {
  import opened Common
  import opened Operations

  type DbId = nat
  type OpId = nat          // an operation's place in creation order
  type ReconcilerId = nat

  datatype Status = Pending | Running | Succeeded | Failed
  datatype StepStatus = StepPending | StepDone | StepFailed

  datatype StepRow = StepRow(name: StepName, status: StepStatus, attempts: nat, notBefore: real, finishedAt: real)

  datatype Op = Op(
    db: DbId, kind: Kind, restart: bool, status: Status, created: real, deadline: real, steps: seq<StepRow>)

  datatype TaskKind = BackupTask | RestartTask | SwitchoverTask | ModeTask | ReplaceTask | PasswordsTask
  datatype TaskKey = TaskKey(op: OpId, kind: TaskKind)
  datatype TaskStatus = TaskPending | TaskSucceeded | TaskFailed
  datatype Task = Task(db: DbId, status: TaskStatus)

  datatype Claim = Claim(op: OpId, index: nat, now: real, pastDeadline: bool)

  datatype Db = Db(accessOpen: bool, allowedCidrs: seq<string>)

  datatype State = State(
    dbs: map<DbId, Db>,
    ops: seq<Op>,
    tasks: map<TaskKey, Task>,
    claims: map<ReconcilerId, Claim>)

  datatype Outcome = Done | Wait | Fail

  datatype Event =
    | CreateDb(db: DbId, cidrs: seq<string>)
    | CreateOp(db: DbId, kind: Kind, restart: bool, now: real)
    | DeleteDb(db: DbId, now: real)
    | PutAllowlist(db: DbId, cidrs: seq<string>)
    | ClaimStep(who: ReconcilerId, op: OpId, now: real)
    | Commit(who: ReconcilerId, chosen: Outcome)  // `chosen` where the outcome rests on rows not modelled
    | Crash(who: ReconcilerId)
    | TaskResult(key: TaskKey, success: bool)

  const WAIT_RETRY: real := 1.0

  // ---- Operations and their steps ----

  predicate Active(o: Op) {
    o.status.Pending? || o.status.Running?
  }

  /** The lowest pending step, or the number of steps if none is pending. */
  function FirstPending(steps: seq<StepRow>): (k: nat)
    ensures k <= |steps|
    ensures forall j | 0 <= j < k :: !steps[j].status.StepPending?
    ensures k < |steps| ==> steps[k].status.StepPending?
  {
    if steps == [] || steps[0].status.StepPending? then 0 else 1 + FirstPending(steps[1..])
  }

  function NewSteps(kind: Kind, now: real): (rows: seq<StepRow>)
    ensures |rows| == |Steps(kind)|
    ensures forall i | 0 <= i < |rows| :: rows[i] == StepRow(Steps(kind)[i], StepPending, 0, now, now)
  {
    seq(|Steps(kind)|, i requires 0 <= i < |Steps(kind)| => StepRow(Steps(kind)[i], StepPending, 0, now, now))
  }

  function NewOp(db: DbId, kind: Kind, restart: bool, now: real): Op {
    Op(db, kind, restart, Pending, now, now + TimeoutSeconds(kind) as real, NewSteps(kind, now))
  }

  /** `finish_step`, in the operation's own rows. */
  function Finished(o: Op, k: nat, now: real): Op
    requires k < |o.steps|
  {
    var steps := o.steps[k := o.steps[k].(status := StepDone, attempts := o.steps[k].attempts + 1, finishedAt := now)];
    o.(steps := steps, status := if FirstPending(steps) == |steps| then Succeeded else Running)
  }

  function Waited(o: Op, k: nat, now: real): Op
    requires k < |o.steps|
  {
    o.(status := Running,
       steps := o.steps[k := o.steps[k].(attempts := o.steps[k].attempts + 1, notBefore := now + WAIT_RETRY)])
  }

  function FailedAt(o: Op, k: nat, now: real): Op
    requires k < |o.steps|
  {
    o.(status := Failed,
       steps := o.steps[k := o.steps[k].(status := StepFailed, attempts := o.steps[k].attempts + 1, finishedAt := now)])
  }

  function AfterOutcome(o: Op, c: Claim, outcome: Outcome): Op
    requires c.index < |o.steps|
  {
    match outcome
    case Done => Finished(o, c.index, c.now)
    case Wait => if c.pastDeadline then FailedAt(o, c.index, c.now) else Waited(o, c.index, c.now)
    case Fail => FailedAt(o, c.index, c.now)
  }

  // ---- Steps that hand hosts a task ----

  function TaskOf(o: Op, name: StepName): Option<TaskKind> {
    match name
    case FirstBackup => Some(BackupTask)
    case TakeBackup => Some(BackupTask)
    case RollingRestart => Some(RestartTask)
    case ResizeRestart => if o.restart then Some(RestartTask) else None
    case DoSwitchover => Some(SwitchoverTask)
    case SetReplicationMode => Some(ModeTask)
    case ReplaceMember => Some(ReplaceTask)
    case PasswordsAlter => Some(PasswordsTask)
    case _ => None
  }

  function TaskOutcome(tasks: map<TaskKey, Task>, key: TaskKey): Outcome {
    if key !in tasks then Wait else
    match tasks[key].status
    case TaskPending => Wait
    case TaskSucceeded => Done
    case TaskFailed => Fail
  }

  function StepOutcome(s: State, i: OpId, k: nat, chosen: Outcome): Outcome
    requires i < |s.ops| && k < |s.ops[i].steps|
  {
    var name := s.ops[i].steps[k].name;
    match TaskOf(s.ops[i], name)
    case Some(kind) => TaskOutcome(s.tasks, TaskKey(i, kind))
    case None => if name.OpenAccess? || name.Settle? || name.Activate? || name.ResizeRestart? then Done else chosen
  }

  /** The first attempt of a task's step records the task. */
  function WithTask(s: State, i: OpId, k: nat): map<TaskKey, Task>
    requires i < |s.ops| && k < |s.ops[i].steps|
  {
    match TaskOf(s.ops[i], s.ops[i].steps[k].name)
    case Some(kind) =>
      if TaskKey(i, kind) in s.tasks then s.tasks
      else s.tasks[TaskKey(i, kind) := Task(s.ops[i].db, TaskPending)]
    case None => s.tasks
  }

  function EndTasks(tasks: map<TaskKey, Task>, ended: set<TaskKey>): map<TaskKey, Task> {
    map key | key in tasks ::
      if key in ended && tasks[key].status.TaskPending? then tasks[key].(status := TaskFailed) else tasks[key]
  }

  function TasksOfOp(tasks: map<TaskKey, Task>, i: OpId): set<TaskKey> {
    set key | key in tasks && key.op == i
  }

  function TasksOfDb(tasks: map<TaskKey, Task>, db: DbId): set<TaskKey> {
    set key | key in tasks && tasks[key].db == db
  }

  function Opened(dbs: map<DbId, Db>, db: DbId, name: StepName): map<DbId, Db> {
    if name.OpenAccess? && db in dbs then dbs[db := dbs[db].(accessOpen := true)] else dbs
  }

  // ---- Events ----

  predicate NoEarlierActive(ops: seq<Op>, i: OpId)
    requires i < |ops|
  {
    forall j | 0 <= j < i :: ops[j].db == ops[i].db ==> !Active(ops[j])
  }

  /** What the claiming query selects, with rows other reconcilers have locked left out. */
  predicate Claimable(s: State, i: OpId, now: real) {
    && i < |s.ops|
    && Active(s.ops[i])
    && var k := FirstPending(s.ops[i].steps);
    && k < |s.ops[i].steps|
    && s.ops[i].steps[k].notBefore <= now
    && NoEarlierActive(s.ops, i)
    && forall who <- s.claims :: !(s.claims[who].op == i && s.claims[who].index == k)
  }

  /** The rest of a claiming transaction: run the step and record how it went. */
  function Committed(s: State, who: ReconcilerId, chosen: Outcome): State
    requires who in s.claims && s.claims[who].op < |s.ops|
    requires s.claims[who].index < |s.ops[s.claims[who].op].steps|
  {
    var c := s.claims[who];
    var released := s.(claims := s.claims - {who});
    if !Active(s.ops[c.op]) then released else
    var outcome := StepOutcome(s, c.op, c.index, chosen);
    var after := AfterOutcome(s.ops[c.op], c, outcome);
    var tasks := WithTask(s, c.op, c.index);
    released.(
      ops := s.ops[c.op := after],
      tasks := if after.status.Failed? then EndTasks(tasks, TasksOfOp(tasks, c.op)) else tasks,
      dbs := Opened(s.dbs, s.ops[c.op].db, s.ops[c.op].steps[c.index].name))
  }

  function Superseded(ops: seq<Op>, db: DbId): (r: seq<Op>)
    ensures |r| == |ops|
    ensures forall i | 0 <= i < |ops| ::
              r[i] == if ops[i].db == db && Active(ops[i]) then ops[i].(status := Failed) else ops[i]
  {
    seq(|ops|, i requires 0 <= i < |ops| =>
      if ops[i].db == db && Active(ops[i]) then ops[i].(status := Failed) else ops[i])
  }

  function Next(s: State, e: Event): State {
    match e
    case CreateDb(db, cidrs) => if db in s.dbs then s else s.(dbs := s.dbs[db := Db(false, cidrs)])
    case CreateOp(db, kind, restart, now) => s.(ops := s.ops + [NewOp(db, kind, restart, now)])
    case DeleteDb(db, now) =>
      s.(ops := Superseded(s.ops, db) + [NewOp(db, Delete, false, now)],
         tasks := EndTasks(s.tasks, TasksOfDb(s.tasks, db)))
    case PutAllowlist(db, cidrs) =>
      if db in s.dbs then s.(dbs := s.dbs[db := s.dbs[db].(allowedCidrs := cidrs)]) else s
    case ClaimStep(who, i, now) =>
      if who !in s.claims && Claimable(s, i, now) then
        s.(claims := s.claims[who := Claim(i, FirstPending(s.ops[i].steps), now, s.ops[i].deadline < now)])
      else s
    case Commit(who, chosen) =>
      if who in s.claims && s.claims[who].op < |s.ops| && s.claims[who].index < |s.ops[s.claims[who].op].steps| then
        Committed(s, who, chosen)
      else s
    case Crash(who) => s.(claims := s.claims - {who})
    case TaskResult(key, success) =>
      if key in s.tasks && s.tasks[key].status.TaskPending? then
        s.(tasks := s.tasks[key := s.tasks[key].(status := if success then TaskSucceeded else TaskFailed)])
      else s
  }

  function Init(): State {
    State(map[], [], map[], map[])
  }

  function Run(s: State, es: seq<Event>): State {
    if es == [] then s else Next(Run(s, es[..|es| - 1]), es[|es| - 1])
  }

  // ---- The invariant ----

  /** The operation has run at least one step, to any end. */
  predicate Started(o: Op) {
    exists k | 0 <= k < |o.steps| :: o.steps[k].attempts > 0
  }

  /** Steps before `k` are done and steps after it untouched. */
  predicate DoneUpTo(steps: seq<StepRow>, k: nat) {
    && k <= |steps|
    && (forall j | 0 <= j < k :: steps[j].status.StepDone?)
    && (forall j | k < j < |steps| :: steps[j].status.StepPending? && steps[j].attempts == 0)
  }

  predicate OpOk(o: Op) {
    && |o.steps| == |Steps(o.kind)| > 0
    && (forall j | 0 <= j < |o.steps| :: o.steps[j].name == Steps(o.kind)[j])
    && match o.status
       case Succeeded => DoneUpTo(o.steps, |o.steps|)
       case Failed =>
         exists k | 0 <= k < |o.steps| :: DoneUpTo(o.steps, k) && !o.steps[k].status.StepDone?
       case _ =>
         var k := FirstPending(o.steps);
         k < |o.steps| && DoneUpTo(o.steps, k)
  }

  /** A later operation of a database has run only if every earlier one has ended. */
  predicate InOrder(ops: seq<Op>) {
    forall i, j | 0 <= i < j < |ops| && ops[i].db == ops[j].db && Started(ops[j]) :: !Active(ops[i])
  }

  predicate ClaimOk(ops: seq<Op>, c: Claim) {
    && c.op < |ops|
    && c.index < |ops[c.op].steps|
    && (Active(ops[c.op]) ==>
          && c.index == FirstPending(ops[c.op].steps)
          && ops[c.op].steps[c.index].notBefore <= c.now
          && c.pastDeadline == (ops[c.op].deadline < c.now)
          && NoEarlierActive(ops, c.op))
  }

  /** No two reconcilers hold the same step's row. */
  predicate ClaimsDistinct(claims: map<ReconcilerId, Claim>) {
    forall a, b | a in claims && b in claims && a != b ::
      claims[a].op != claims[b].op || claims[a].index != claims[b].index
  }

  predicate OpsOk(ops: seq<Op>) {
    (forall i | 0 <= i < |ops| :: OpOk(ops[i])) && InOrder(ops)
  }

  predicate ClaimsOk(ops: seq<Op>, claims: map<ReconcilerId, Claim>) {
    (forall who <- claims :: ClaimOk(ops, claims[who])) && ClaimsDistinct(claims)
  }

  predicate Inv(s: State) {
    OpsOk(s.ops) && ClaimsOk(s.ops, s.claims)
  }

  // ---- One operation, one transaction ----

  lemma NewOpOk(db: DbId, kind: Kind, restart: bool, now: real)
    ensures OpOk(NewOp(db, kind, restart, now)) && !Started(NewOp(db, kind, restart, now))
  {
    var o := NewOp(db, kind, restart, now);
    assert o.steps[0].status.StepPending?;
    assert FirstPending(o.steps) == 0;
  }

  lemma FinishedOpOk(o: Op, k: nat, now: real)
    requires OpOk(o) && Active(o) && k == FirstPending(o.steps)
    ensures OpOk(Finished(o, k, now))
  {
    var after := Finished(o, k, now);
    var f := FirstPending(after.steps);
    if k + 1 < |o.steps| {
      assert after.steps[k + 1].status.StepPending?;
      assert f == k + 1;
    }
  }

  lemma WaitedOpOk(o: Op, k: nat, now: real)
    requires OpOk(o) && Active(o) && k == FirstPending(o.steps)
    ensures OpOk(Waited(o, k, now))
  {
    var after := Waited(o, k, now);
    var f := FirstPending(after.steps);
    assert after.steps[k].status.StepPending?;
    assert f == k;
  }

  lemma FailedOpOk(o: Op, k: nat, now: real)
    requires OpOk(o) && Active(o) && k == FirstPending(o.steps)
    ensures OpOk(FailedAt(o, k, now))
  {
    assert DoneUpTo(FailedAt(o, k, now).steps, k);
  }

  lemma OutcomeKeepsOpOk(o: Op, c: Claim, outcome: Outcome)
    requires OpOk(o) && Active(o) && c.index == FirstPending(o.steps)
    ensures OpOk(AfterOutcome(o, c, outcome))
  {
    FinishedOpOk(o, c.index, c.now);
    WaitedOpOk(o, c.index, c.now);
    FailedOpOk(o, c.index, c.now);
  }

  lemma SupersededOpOk(o: Op)
    requires OpOk(o) && Active(o)
    ensures OpOk(o.(status := Failed))
  {
    assert DoneUpTo(o.steps, FirstPending(o.steps));
  }

  /** All that one event can do to an operation that exists. */
  predicate OpMoves(o: Op, o': Op) {
    || o' == o
    || (Active(o) && o' == o.(status := Failed))
    || (Active(o) && Executes(o, o'))
  }

  /** A reconciler ran the first pending step and recorded one of the three endings. */
  predicate Executes(o: Op, o': Op) {
    var k := FirstPending(o.steps);
    && k < |o.steps| == |o'.steps|
    && var now := if o'.steps[k].status.StepPending? then o'.steps[k].notBefore - WAIT_RETRY else o'.steps[k].finishedAt;
    && o.steps[k].notBefore <= now
    && (o' == Finished(o, k, now) || o' == FailedAt(o, k, now) || (now <= o.deadline && o' == Waited(o, k, now)))
  }

  lemma OutcomeMoves(o: Op, c: Claim, outcome: Outcome)
    requires OpOk(o) && Active(o) && c.index == FirstPending(o.steps)
    requires o.steps[c.index].notBefore <= c.now && c.pastDeadline == (o.deadline < c.now)
    ensures Executes(o, AfterOutcome(o, c, outcome))
  {
  }

  // ---- Every event keeps the invariant ----

  /** Operations that only move on, with new ones appended that have not started, stay in order. */
  lemma OrderKept(ops: seq<Op>, ops': seq<Op>)
    requires InOrder(ops) && |ops| <= |ops'|
    requires forall i | 0 <= i < |ops| :: ops'[i].db == ops[i].db && (Active(ops'[i]) ==> Active(ops[i]))
    requires forall i | 0 <= i < |ops| && Started(ops'[i]) :: Started(ops[i]) || NoEarlierActive(ops, i)
    requires forall i | |ops| <= i < |ops'| :: !Started(ops'[i])
    ensures InOrder(ops')
  {
  }

  lemma ClaimKept(ops: seq<Op>, ops': seq<Op>, c: Claim)
    requires ClaimOk(ops, c)
    requires |ops| <= |ops'|
    requires forall i | 0 <= i < |ops| :: ops'[i].db == ops[i].db && (Active(ops'[i]) ==> Active(ops[i]))
    requires |ops'[c.op].steps| == |ops[c.op].steps|
    requires Active(ops'[c.op]) ==> ops'[c.op].steps == ops[c.op].steps && ops'[c.op].deadline == ops[c.op].deadline
    ensures ClaimOk(ops', c)
  {
  }

  /** While a claim's operation is active, no other claim is on that operation. */
  lemma OtherClaim(ops: seq<Op>, claims: map<ReconcilerId, Claim>, a: ReconcilerId, b: ReconcilerId)
    requires ClaimsOk(ops, claims) && a in claims && b in claims && a != b
    requires Active(ops[claims[a].op])
    ensures claims[b].op != claims[a].op
  {
    assert ClaimOk(ops, claims[a]) && ClaimOk(ops, claims[b]);
  }

  /** One claimed operation moves, and every other stays as it is. */
  lemma OneOpMoves(ops: seq<Op>, c: Claim, outcome: Outcome)
    requires OpsOk(ops) && ClaimOk(ops, c) && Active(ops[c.op])
    ensures OpsOk(ops[c.op := AfterOutcome(ops[c.op], c, outcome)])
  {
    OutcomeKeepsOpOk(ops[c.op], c, outcome);
    OrderKept(ops, ops[c.op := AfterOutcome(ops[c.op], c, outcome)]);
  }

  lemma OtherClaimsStay(ops: seq<Op>, claims: map<ReconcilerId, Claim>, who: ReconcilerId, outcome: Outcome)
    requires OpsOk(ops) && ClaimsOk(ops, claims) && who in claims && Active(ops[claims[who].op])
    ensures ClaimsOk(ops[claims[who].op := AfterOutcome(ops[claims[who].op], claims[who], outcome)], claims - {who})
  {
    var c := claims[who];
    var ops' := ops[c.op := AfterOutcome(ops[c.op], c, outcome)];
    forall other <- claims - {who}
      ensures ClaimOk(ops', claims[other])
    {
      OtherClaim(ops, claims, who, other);
      ClaimKept(ops, ops', claims[other]);
    }
  }

  lemma CommitKeepsInv(s: State, who: ReconcilerId, chosen: Outcome)
    requires Inv(s) && who in s.claims
    ensures Inv(Next(s, Commit(who, chosen)))
  {
    var c := s.claims[who];
    assert ClaimOk(s.ops, c);
    if Active(s.ops[c.op]) {
      var outcome := StepOutcome(s, c.op, c.index, chosen);
      OneOpMoves(s.ops, c, outcome);
      OtherClaimsStay(s.ops, s.claims, who, outcome);
    }
  }

  lemma CreateKeepsInv(ops: seq<Op>, claims: map<ReconcilerId, Claim>, db: DbId, kind: Kind, restart: bool, now: real)
    requires OpsOk(ops) && ClaimsOk(ops, claims)
    ensures OpsOk(ops + [NewOp(db, kind, restart, now)])
    ensures ClaimsOk(ops + [NewOp(db, kind, restart, now)], claims)
  {
    var ops' := ops + [NewOp(db, kind, restart, now)];
    NewOpOk(db, kind, restart, now);
    OrderKept(ops, ops');
    forall who <- claims
      ensures ClaimOk(ops', claims[who])
    {
      ClaimKept(ops, ops', claims[who]);
    }
  }

  lemma SupersedeKeepsInv(ops: seq<Op>, claims: map<ReconcilerId, Claim>, db: DbId)
    requires OpsOk(ops) && ClaimsOk(ops, claims)
    ensures OpsOk(Superseded(ops, db)) && ClaimsOk(Superseded(ops, db), claims)
  {
    var ops' := Superseded(ops, db);
    forall i | 0 <= i < |ops|
      ensures OpOk(ops'[i])
    {
      if ops[i].db == db && Active(ops[i]) {
        SupersededOpOk(ops[i]);
      }
    }
    OrderKept(ops, ops');
    forall who <- claims
      ensures ClaimOk(ops', claims[who])
    {
      ClaimKept(ops, ops', claims[who]);
    }
  }

  lemma StepKeepsInv(s: State, e: Event)
    requires Inv(s)
    ensures Inv(Next(s, e))
  {
    match e
    case CreateOp(db, kind, restart, now) => CreateKeepsInv(s.ops, s.claims, db, kind, restart, now);
    case DeleteDb(db, now) =>
      SupersedeKeepsInv(s.ops, s.claims, db);
      CreateKeepsInv(Superseded(s.ops, db), s.claims, db, Delete, false, now);
    case Commit(who, chosen) =>
      if who in s.claims {
        CommitKeepsInv(s, who, chosen);
      }
    case ClaimStep(who, i, now) => ClaimKeepsInv(s, who, i, now);
    case Crash(who) =>
    case _ =>
      assert Next(s, e).ops == s.ops && Next(s, e).claims == s.claims;
  }

  /** A claim is of the first pending step of an operation nothing holds up, and of a row no other claim holds. */
  lemma ClaimKeepsInv(s: State, who: ReconcilerId, i: OpId, now: real)
    requires Inv(s)
    ensures Inv(Next(s, ClaimStep(who, i, now)))
  {
    if who !in s.claims && Claimable(s, i, now) {
      assert OpOk(s.ops[i]);
      assert ClaimOk(s.ops, Claim(i, FirstPending(s.ops[i].steps), now, s.ops[i].deadline < now));
    }
  }

  lemma {:induction false} RunKeepsInv(es: seq<Event>)
    ensures Inv(Run(Init(), es))
  {
    if es != [] {
      RunKeepsInv(es[..|es| - 1]);
      StepKeepsInv(Run(Init(), es[..|es| - 1]), es[|es| - 1]);
    }
  }

  // ---- What holds over whole runs ----

  /** The event is a commit that runs a step of `i`, which no earlier operation of the database holds up. */
  predicate RunsStepOf(s: State, e: Event, i: OpId) {
    && e.Commit?
    && e.who in s.claims
    && s.claims[e.who].op == i < |s.ops|
    && Active(s.ops[i])
  }

  lemma EventMoves(s: State, e: Event, i: OpId)
    requires Inv(s) && i < |s.ops|
    ensures |s.ops| <= |Next(s, e).ops|
    ensures OpMoves(s.ops[i], Next(s, e).ops[i])
    ensures RunsStepOf(s, e, i) ==> Executes(s.ops[i], Next(s, e).ops[i]) && NoEarlierActive(s.ops, i)
    ensures !RunsStepOf(s, e, i) ==>
              Next(s, e).ops[i] == s.ops[i]
              || (e.DeleteDb? && Active(s.ops[i]) && Next(s, e).ops[i] == s.ops[i].(status := Failed))
  {
    if e.Commit? && e.who in s.claims {
      CommitMoves(s, e.who, e.chosen, i);
    }
  }

  lemma CommitMoves(s: State, who: ReconcilerId, chosen: Outcome, i: OpId)
    requires Inv(s) && i < |s.ops| && who in s.claims
    ensures var s' := Next(s, Commit(who, chosen));
            && |s'.ops| == |s.ops|
            && if s.claims[who].op == i && Active(s.ops[i]) then
                 Executes(s.ops[i], s'.ops[i]) && NoEarlierActive(s.ops, i)
               else s'.ops[i] == s.ops[i]
  {
    var c := s.claims[who];
    assert ClaimOk(s.ops, c) && OpOk(s.ops[c.op]);
    CommittedOps(s, who, chosen);
    if Active(s.ops[c.op]) {
      OutcomeMoves(s.ops[c.op], c, StepOutcome(s, c.op, c.index, chosen));
    }
  }

  /** The operations a commit leaves. */
  lemma CommittedOps(s: State, who: ReconcilerId, chosen: Outcome)
    requires who in s.claims && ClaimOk(s.ops, s.claims[who])
    ensures var c := s.claims[who];
            Next(s, Commit(who, chosen)).ops
            == if Active(s.ops[c.op]) then s.ops[c.op := AfterOutcome(s.ops[c.op], c, StepOutcome(s, c.op, c.index, chosen))]
               else s.ops
  {
  }

  /**
  A step runs only while every earlier operation of its database has ended, and it is
  the first of its operation that is not done. So operations of a database run one at
  a time, in the order they were created, and their steps in the order they are listed.
  */
  lemma OneAtATimeInOrder(es: seq<Event>, e: Event, i: OpId, j: OpId)
    requires RunsStepOf(Run(Init(), es), e, i)
    ensures var s := Run(Init(), es);
            var k := FirstPending(s.ops[i].steps);
            && DoneUpTo(s.ops[i].steps, k) && k < |s.ops[i].steps|
            && (forall q | 0 <= q < |s.ops[i].steps| && q != k :: Next(s, e).ops[i].steps[q] == s.ops[i].steps[q])
            && (j < i && s.ops[j].db == s.ops[i].db ==> !Active(s.ops[j]))
            && (i < j < |s.ops| && s.ops[j].db == s.ops[i].db ==> !Started(s.ops[j]))
  {
    RunKeepsInv(es);
    EventMoves(Run(Init(), es), e, i);
  }

  /** Two reconcilers never run steps of one database at once. */
  lemma NoTwoAtOnce(es: seq<Event>, a: ReconcilerId, b: ReconcilerId)
    ensures var s := Run(Init(), es);
            a in s.claims && b in s.claims && a != b ==>
              var i, j := s.claims[a].op, s.claims[b].op;
              i < |s.ops| && j < |s.ops| && (Active(s.ops[i]) && Active(s.ops[j]) ==> s.ops[i].db != s.ops[j].db)
  {
    RunKeepsInv(es);
    var s := Run(Init(), es);
    if a in s.claims && b in s.claims && a != b {
      assert ClaimOk(s.ops, s.claims[a]) && ClaimOk(s.ops, s.claims[b]);
      if Active(s.ops[s.claims[a].op]) {
        OtherClaim(s.ops, s.claims, a, b);
      }
    }
  }

  /** An operation has succeeded exactly when every one of its steps is done. */
  lemma SucceededExactlyWhenAllDone(es: seq<Event>, i: OpId)
    ensures var s := Run(Init(), es);
            i < |s.ops| ==>
              (s.ops[i].status.Succeeded? <==>
               forall k | 0 <= k < |s.ops[i].steps| :: s.ops[i].steps[k].status.StepDone?)
  {
    RunKeepsInv(es);
    var s := Run(Init(), es);
    if i < |s.ops| {
      assert OpOk(s.ops[i]);
    }
  }

  // ---- What may run ----

  /** The operation's next step may be tried, and every earlier operation of its database has ended. */
  predicate NextUp(ops: seq<Op>, i: OpId, now: real) {
    && i < |ops| && (ops[i].status == Pending || ops[i].status == Running)
    && (exists k | 0 <= k < |ops[i].steps| ::
          && (forall j | 0 <= j < k :: ops[i].steps[j].status == StepDone)
          && ops[i].steps[k].status == StepPending && ops[i].steps[k].notBefore <= now)
    && (forall j | 0 <= j < i && ops[j].db == ops[i].db :: ops[j].status == Succeeded || ops[j].status == Failed)
  }

  lemma NextUpIs(o: Op, k: nat)
    requires OpOk(o) && Active(o) && k < |o.steps|
    ensures (forall j | 0 <= j < k :: o.steps[j].status == StepDone) && o.steps[k].status == StepPending
            <==> k == FirstPending(o.steps)
  {
  }

  lemma NextUpOnRows(ops: seq<Op>, i: OpId, now: real)
    requires OpsOk(ops) && i < |ops| && Active(ops[i])
    ensures NextUp(ops, i, now) <==>
              && FirstPending(ops[i].steps) < |ops[i].steps|
              && ops[i].steps[FirstPending(ops[i].steps)].notBefore <= now && NoEarlierActive(ops, i)
  {
    assert OpOk(ops[i]);
    forall k | 0 <= k < |ops[i].steps|
      ensures (forall j | 0 <= j < k :: ops[i].steps[j].status == StepDone) && ops[i].steps[k].status == StepPending
              <==> k == FirstPending(ops[i].steps)
    {
      NextUpIs(ops[i], k);
    }
  }

  /** A free reconciler gets an operation's next step exactly when it is next up and no other reconciler holds it. */
  lemma ClaimedExactlyWhen(es: seq<Event>, who: ReconcilerId, i: OpId, now: real)
    requires who !in Run(Init(), es).claims
    ensures var s := Run(Init(), es);
            who in Next(s, ClaimStep(who, i, now)).claims
            <==> NextUp(s.ops, i, now) && forall other <- s.claims :: s.claims[other].op != i
  {
    RunKeepsInv(es);
    var s := Run(Init(), es);
    if i < |s.ops| && Active(s.ops[i]) {
      NextUpOnRows(s.ops, i, now);
      forall other <- s.claims | s.claims[other].op == i
        ensures s.claims[other].index == FirstPending(s.ops[i].steps)
      {
        assert ClaimOk(s.ops, s.claims[other]);
      }
    }
  }

  /** A reconciler that dies changes no row, and its step is free for any other. */
  lemma CrashFreesTheStep(es: seq<Event>, who: ReconcilerId, other: ReconcilerId, now: real)
    requires AboutToRun(Run(Init(), es), who)
    requires var s := Run(Init(), es);
             s.ops[s.claims[who].op].steps[s.claims[who].index].notBefore <= now && (other == who || other !in s.claims)
    ensures var s := Run(Init(), es);
            var crashed := Next(s, Crash(who));
            && crashed.ops == s.ops && crashed.tasks == s.tasks && crashed.dbs == s.dbs
            && other in Next(crashed, ClaimStep(other, s.claims[who].op, now)).claims
  {
    RunKeepsInv(es);
    var s := Run(Init(), es);
    assert ClaimOk(s.ops, s.claims[who]);
  }

  /**
  A delete ends everything else the database has under way, leaves other databases alone, and is
  recorded as an operation that can be claimed at once, whatever was running.
  */
  lemma DeleteIsNeverHeldUp(es: seq<Event>, db: DbId, now: real)
    ensures var s, s' := Run(Init(), es), Next(Run(Init(), es), DeleteDb(db, now));
            && |s'.ops| == |s.ops| + 1
            && (forall i | 0 <= i < |s.ops| :: if s.ops[i].db == db then !Active(s'.ops[i]) else s'.ops[i] == s.ops[i])
            && s'.ops[|s.ops|].db == db && s'.ops[|s.ops|].kind == Kind.Delete
            && NextUp(s'.ops, |s.ops|, now) && forall who <- s'.claims :: s'.claims[who].op != |s.ops|
  {
    RunKeepsInv(es);
    var s := Run(Init(), es);
    forall who <- s.claims
      ensures s.claims[who].op < |s.ops|
    {
      assert ClaimOk(s.ops, s.claims[who]);
    }
    NewestIsNextUp(Superseded(s.ops, db), db, now);
  }

  /** With every other operation of its database ended, one that was just recorded is next up. */
  lemma NewestIsNextUp(ops: seq<Op>, db: DbId, now: real)
    requires forall i | 0 <= i < |ops| && ops[i].db == db :: !Active(ops[i])
    ensures NextUp(ops + [NewOp(db, Kind.Delete, false, now)], |ops|, now)
  {
    var o := NewOp(db, Kind.Delete, false, now);
    assert o.steps[0].status == StepPending && o.steps[0].notBefore <= now;
  }

  /** In every run, a step about to run finds the work it builds on done, by its own operation. */
  lemma WorkIsDoneInOrder(es: seq<Event>, who: ReconcilerId, name: StepName)
    requires AboutToRun(Run(Init(), es), who)
    requires var s := Run(Init(), es);
             name in BuildsOn(s.ops[s.claims[who].op].steps[s.claims[who].index].name)
    ensures var s := Run(Init(), es);
            var c := s.claims[who];
            exists j | 0 <= j < c.index :: s.ops[c.op].steps[j].name == name && s.ops[c.op].steps[j].status.StepDone?
  {
    RunKeepsInv(es);
    var s := Run(Init(), es);
    var c := s.claims[who];
    assert ClaimOk(s.ops, c) && OpOk(s.ops[c.op]);
    WorkComesInOrder(s.ops[c.op].kind, c.index, name);
    var j :| 0 <= j < |Steps(s.ops[c.op].kind)| && j < c.index && Steps(s.ops[c.op].kind)[j] == name;
    assert s.ops[c.op].steps[j].name == name;
  }

  // ---- How a step that was claimed ends ----

  /** The reconciler is about to run a step of an operation that is still active. */
  predicate AboutToRun(s: State, who: ReconcilerId) {
    && who in s.claims
    && s.claims[who].op < |s.ops|
    && Active(s.ops[s.claims[who].op])
    && s.claims[who].index < |s.ops[s.claims[who].op].steps|
  }

  predicate HasStatus(tasks: map<TaskKey, Task>, key: TaskKey, status: TaskStatus) {
    key in tasks && tasks[key].status == status
  }

  /** The step has the status in the operation's rows, and the operation's own goes with it. */
  predicate StandsAs(o: Op, k: nat, status: StepStatus, now: real) {
    && k < |o.steps|
    && o.steps[k].status == status
    && match status
       case StepDone => o.status.Running? || o.status.Succeeded?
       case StepFailed => o.status.Failed?
       case StepPending => o.status.Running? && o.steps[k].notBefore == now + 1.0
  }

  /** How the rows stand once the claim is committed. */
  predicate EndsAs(s: State, who: ReconcilerId, chosen: Outcome, status: StepStatus)
    requires AboutToRun(s, who)
  {
    var c := s.claims[who];
    var ops := Next(s, Commit(who, chosen)).ops;
    c.op < |ops| && StandsAs(ops[c.op], c.index, status, c.now)
  }

  lemma OutcomeStands(o: Op, c: Claim, outcome: Outcome)
    requires c.index < |o.steps| && o.steps[c.index].status.StepPending?
    ensures var o' := AfterOutcome(o, c, outcome);
            && (StandsAs(o', c.index, StepDone, c.now) <==> outcome.Done?)
            && (StandsAs(o', c.index, StepFailed, c.now) <==> outcome.Fail? || (outcome.Wait? && c.pastDeadline))
            && (StandsAs(o', c.index, StepPending, c.now) <==> outcome.Wait? && !c.pastDeadline)
  {
  }

  lemma CommitEnds(s: State, who: ReconcilerId, chosen: Outcome)
    requires Inv(s) && AboutToRun(s, who)
    ensures var c := s.claims[who];
            var outcome := StepOutcome(s, c.op, c.index, chosen);
            var late := s.ops[c.op].deadline < c.now;
            && (EndsAs(s, who, chosen, StepDone) <==> outcome.Done?)
            && (EndsAs(s, who, chosen, StepFailed) <==> outcome.Fail? || (outcome.Wait? && late))
            && (EndsAs(s, who, chosen, StepPending) <==> outcome.Wait? && !late)
            && (forall i | 0 <= i < |s.ops| && i != c.op :: Next(s, Commit(who, chosen)).ops[i] == s.ops[i])
  {
    var c := s.claims[who];
    assert ClaimOk(s.ops, c);
    OutcomeStands(s.ops[c.op], c, StepOutcome(s, c.op, c.index, chosen));
  }

  /**
  In every run, a step that hands out a task ends as the task did: done exactly when the task
  succeeded, and failed exactly when it failed or has no answer by the deadline. Otherwise it
  stays pending, to be tried again in a second, and the task is on record.
  */
  lemma TaskStepEnds(es: seq<Event>, who: ReconcilerId, chosen: Outcome, kind: TaskKind)
    requires AboutToRun(Run(Init(), es), who)
    requires var s := Run(Init(), es);
             var o := s.ops[s.claims[who].op];
             TaskOf(o, o.steps[s.claims[who].index].name) == Some(kind)
    ensures var s := Run(Init(), es);
            var c := s.claims[who];
            var key := TaskKey(c.op, kind);
            var succeeded, failed := HasStatus(s.tasks, key, TaskSucceeded), HasStatus(s.tasks, key, TaskFailed);
            var late := s.ops[c.op].deadline < c.now;
            && (EndsAs(s, who, chosen, StepDone) <==> succeeded)
            && (EndsAs(s, who, chosen, StepFailed) <==> failed || (!succeeded && late))
            && (EndsAs(s, who, chosen, StepPending) <==> !succeeded && !failed && !late)
            && key in Next(s, Commit(who, chosen)).tasks
  {
    RunKeepsInv(es);
    CommitEnds(Run(Init(), es), who, chosen);
  }

  /** The steps that only change rows end at once, and any other as the rows it looks at have it. */
  lemma OtherStepEnds(es: seq<Event>, who: ReconcilerId, chosen: Outcome)
    requires AboutToRun(Run(Init(), es), who)
    requires var s := Run(Init(), es);
             var o := s.ops[s.claims[who].op];
             TaskOf(o, o.steps[s.claims[who].index].name).None?
    ensures var s := Run(Init(), es);
            var c := s.claims[who];
            var atOnce := s.ops[c.op].steps[c.index].name in {OpenAccess, Settle, Activate, ResizeRestart};
            var late := s.ops[c.op].deadline < c.now;
            && (EndsAs(s, who, chosen, StepDone) <==> atOnce || chosen.Done?)
            && (EndsAs(s, who, chosen, StepFailed) <==> !atOnce && (chosen.Fail? || (chosen.Wait? && late)))
            && (EndsAs(s, who, chosen, StepPending) <==> !atOnce && chosen.Wait? && !late)
            && (forall i | 0 <= i < |s.ops| && i != c.op :: Next(s, Commit(who, chosen)).ops[i] == s.ops[i])
  {
    RunKeepsInv(es);
    CommitEnds(Run(Init(), es), who, chosen);
  }

  /** What an event may not undo: an ended operation, and a done step. */
  predicate Preserves(o: Op, o': Op) {
    && (!Active(o) ==> o' == o)
    && |o'.steps| == |o.steps|
    && forall k | 0 <= k < |o.steps| && o.steps[k].status.StepDone? :: o'.steps[k] == o.steps[k]
  }

  /** An ended operation never changes again, and neither does a done step of any operation. */
  lemma {:induction false} EndedIsForever(es: seq<Event>, n: nat, i: OpId)
    requires n <= |es| && i < |Run(Init(), es[..n]).ops|
    ensures i < |Run(Init(), es).ops|
    ensures Preserves(Run(Init(), es[..n]).ops[i], Run(Init(), es).ops[i])
  {
    if n == |es| {
      assert es[..n] == es;
    } else {
      var most := es[..|es| - 1];
      assert most[..n] == es[..n];
      EndedIsForever(most, n, i);
      RunKeepsInv(most);
      EventMoves(Run(Init(), most), es[|es| - 1], i);
    }
  }
}
