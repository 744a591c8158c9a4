/** The tasks of the engine: which operations hand out which, and what becomes of them when an operation ends. */
module EngineTasks {
  import opened Common
  import opened Operations
  import opened Engine
  import opened AccessGate

  /** The one kind of task an operation needs a host for, if any. */
  function NeededTask(kind: Kind, restart: bool): Option<TaskKind> {
    match kind
    case Create | PromoteReplica | Backup => Some(BackupTask)
    case Restart | RollingUpdate | Upgrade => Some(RestartTask)
    case Resize => if restart then Some(RestartTask) else None
    case Switchover => Some(SwitchoverTask)
    case ReplicationMode => Some(ModeTask)
    case Replace => Some(ReplaceTask)
    case RotatePasswords => Some(PasswordsTask)
    case Update | Delete | RotateCa | CreateReplica => None
  }

  /** A task is of an operation that needs it, and is not waited for once the operation has ended. */
  predicate TaskOk(ops: seq<Op>, key: TaskKey, task: Task) {
    && key.op < |ops|
    && NeededTask(ops[key.op].kind, ops[key.op].restart) == Some(key.kind)
    && task.db == ops[key.op].db
    && (task.status.TaskPending? ==> Active(ops[key.op]))
  }

  predicate TasksOk(s: State) {
    forall key <- s.tasks :: TaskOk(s.ops, key, s.tasks[key])
  }

  /** The kinds with more than four steps. */
  predicate Long(kind: Kind) {
    kind.Create? || kind.PromoteReplica? || kind.RollingUpdate? || kind.Replace? || kind.RotateCa? || kind.RotatePasswords?
  }

  lemma LongStepTask(kind: Kind, o: Op, k: nat)
    requires Long(kind) && k < |Steps(kind)| && TaskOf(o, Steps(kind)[k]).Some?
    ensures TaskOf(o, Steps(kind)[k]) == NeededTask(kind, o.restart)
  {
  }

  lemma ShortStepTask(kind: Kind, o: Op, k: nat)
    requires !Long(kind) && k < |Steps(kind)| && TaskOf(o, Steps(kind)[k]).Some?
    ensures TaskOf(o, Steps(kind)[k]) == NeededTask(kind, o.restart)
  {
  }

  /** Every step of an operation that hands out a task hands out that one. */
  lemma StepTaskIsNeeded(o: Op, k: nat)
    requires OpOk(o) && k < |o.steps| && TaskOf(o, o.steps[k].name).Some?
    ensures TaskOf(o, o.steps[k].name) == NeededTask(o.kind, o.restart)
  {
    assert o.steps[k].name == Steps(o.kind)[k];
    if Long(o.kind) {
      LongStepTask(o.kind, o, k);
    } else {
      ShortStepTask(o.kind, o, k);
    }
  }

  /** And one of its steps does. */
  lemma NeededTaskHasAStep(o: Op) returns (k: nat)
    requires OpOk(o) && NeededTask(o.kind, o.restart).Some?
    ensures k < |o.steps| && TaskOf(o, o.steps[k].name) == NeededTask(o.kind, o.restart)
  {
    k := if o.kind.Create? || o.kind.RotatePasswords? then 2
         else if o.kind.PromoteReplica? then 3
         else if o.kind.Backup? || o.kind.Restart? || o.kind.Switchover? then 0
         else 1;
    assert o.steps[k].name == Steps(o.kind)[k];
  }

  // ---- Every event keeps them so ----

  /** Operations only grow in number, keep what they are, and end on their own terms. */
  predicate OpsKept(ops: seq<Op>, ops': seq<Op>, ended: set<OpId>) {
    && |ops| <= |ops'|
    && forall i | 0 <= i < |ops| ::
         && ops'[i].db == ops[i].db && ops'[i].kind == ops[i].kind && ops'[i].restart == ops[i].restart
         && (Active(ops[i]) && i !in ended ==> Active(ops'[i]))
  }

  lemma TaskCarries(ops: seq<Op>, ops': seq<Op>, ended: set<OpId>, key: TaskKey, task: Task)
    requires TaskOk(ops, key, task) && OpsKept(ops, ops', ended) && (task.status.TaskPending? ==> key.op !in ended)
    ensures TaskOk(ops', key, task)
  {
  }

  lemma DeleteKeepsTasks(s: State, db: DbId, now: real)
    requires TasksOk(s)
    ensures TasksOk(Next(s, DeleteDb(db, now)))
  {
    var s' := Next(s, DeleteDb(db, now));
    forall key <- s'.tasks
      ensures TaskOk(s'.ops, key, s'.tasks[key])
    {
      assert TaskOk(s.ops, key, s.tasks[key]);
    }
  }

  lemma CreateKeepsTasks(s: State, e: Event)
    requires TasksOk(s) && e.CreateOp?
    ensures TasksOk(Next(s, e))
  {
    forall key <- s.tasks
      ensures TaskOk(Next(s, e).ops, key, s.tasks[key])
    {
      TaskCarries(s.ops, Next(s, e).ops, {}, key, s.tasks[key]);
    }
  }

  /** Recording the task of a step that is tried for the first time. */
  lemma RecordedIsOk(s: State, i: OpId, k: nat)
    requires OpsOk(s.ops) && TasksOk(s) && i < |s.ops| && k < |s.ops[i].steps| && Active(s.ops[i])
    ensures forall key <- WithTask(s, i, k) :: TaskOk(s.ops, key, WithTask(s, i, k)[key])
  {
    assert OpOk(s.ops[i]);
    if TaskOf(s.ops[i], s.ops[i].steps[k].name).Some? {
      StepTaskIsNeeded(s.ops[i], k);
    }
  }

  /** A succeeded operation waits for no task: the step that handed it out is done. */
  lemma SucceededWaitsForNone(o: Op, tasks: map<TaskKey, Task>, i: OpId, key: TaskKey)
    requires OpOk(o) && o.status.Succeeded? && key.op == i && key in tasks
    requires NeededTask(o.kind, o.restart) == Some(key.kind)
    requires forall k | 0 <= k < |o.steps| :: StepReal(o, tasks, i, k)
    ensures tasks[key].status.TaskSucceeded?
  {
    var k := NeededTaskHasAStep(o);
    assert StepReal(o, tasks, i, k);
  }

  /** What a commit leaves of operations and tasks. */
  lemma CommittedRows(s: State, e: Event)
    requires Inv(s) && e.Commit? && AboutToRun(s, e.who)
    ensures var s', i := Next(s, e), s.claims[e.who].op;
            var recorded := WithTask(s, i, s.claims[e.who].index);
            && i < |s'.ops| && OpMoves(s.ops[i], s'.ops[i]) && s'.ops == s.ops[i := s'.ops[i]]
            && s'.tasks == if s'.ops[i].status.Failed? then EndTasks(recorded, TasksOfOp(recorded, i)) else recorded
  {
    EventMoves(s, e, s.claims[e.who].op);
  }

  lemma CommitKeepsTasks(s: State, e: Event)
    requires Inv(s) && GateOk(s) && TasksOk(s) && e.Commit? && AboutToRun(s, e.who)
    ensures TasksOk(Next(s, e))
  {
    var s', c := Next(s, e), s.claims[e.who];
    assert ClaimOk(s.ops, c);
    RecordedIsOk(s, c.op, c.index);
    CommittedRows(s, e);
    StepKeepsInv(s, e);
    TasksStayReal(s, e, c.op);
    var recorded := WithTask(s, c.op, c.index);
    forall key <- s'.tasks
      ensures TaskOk(s'.ops, key, s'.tasks[key])
    {
      assert TaskOk(s.ops, key, recorded[key]);
      if key.op == c.op && s'.ops[c.op].status.Succeeded? {
        SucceededWaitsForNone(s'.ops[c.op], s'.tasks, c.op, key);
      }
      TaskAfterCommit(s.ops, s'.ops[c.op], c.op, key, recorded[key], s'.tasks[key]);
    }
  }

  /** One operation moved, and its tasks ended with it if it failed. */
  lemma TaskAfterCommit(ops: seq<Op>, o: Op, i: OpId, key: TaskKey, task: Task, task': Task)
    requires i < |ops| && OpMoves(ops[i], o) && TaskOk(ops, key, task)
    requires task' == if o.status.Failed? && key.op == i && task.status.TaskPending? then task.(status := TaskFailed) else task
    requires key.op == i && o.status.Succeeded? ==> !task'.status.TaskPending?
    ensures TaskOk(ops[i := o], key, task')
  {
  }

  lemma StepKeepsTasks(s: State, e: Event)
    requires Inv(s) && GateOk(s) && TasksOk(s)
    ensures TasksOk(Next(s, e))
  {
    match e
    case CreateOp(db, kind, restart, now) => CreateKeepsTasks(s, e);
    case DeleteDb(db, now) => DeleteKeepsTasks(s, db, now);
    case Commit(who, chosen) =>
      if AboutToRun(s, who) {
        CommitKeepsTasks(s, e);
      } else {
        assert Next(s, e).tasks == s.tasks && Next(s, e).ops == s.ops;
      }
    case TaskResult(key, success) =>
      assert key in s.tasks ==> TaskOk(s.ops, key, s.tasks[key]);
    case _ => assert Next(s, e).tasks == s.tasks && Next(s, e).ops == s.ops;
  }

  lemma {:induction false} RunKeepsTasks(es: seq<Event>)
    ensures TasksOk(Run(Init(), es))
  {
    if es != [] {
      RunKeepsTasks(es[..|es| - 1]);
      RunKeepsInv(es[..|es| - 1]);
      RunKeepsGate(es[..|es| - 1]);
      StepKeepsTasks(Run(Init(), es[..|es| - 1]), es[|es| - 1]);
    }
  }

  /**
  In every run, a task on record is the one its operation is known to need, for that operation's
  database, and hosts are asked for it only while the operation is active.
  */
  lemma TasksAreNeeded(es: seq<Event>, key: TaskKey)
    requires key in Run(Init(), es).tasks
    ensures var s := Run(Init(), es);
            && key.op < |s.ops|
            && NeededTask(s.ops[key.op].kind, s.ops[key.op].restart) == Some(key.kind)
            && s.tasks[key].db == s.ops[key.op].db
            && (s.tasks[key].status.TaskPending? ==> Active(s.ops[key.op]))
  {
    RunKeepsTasks(es);
    var s := Run(Init(), es);
    assert TaskOk(s.ops, key, s.tasks[key]);
  }

  /** And no operation that needs one has succeeded before a host reported that it did. */
  lemma NeededTaskWasReported(es: seq<Event>, i: OpId)
    requires i < |Run(Init(), es).ops| && Run(Init(), es).ops[i].status.Succeeded?
    ensures var o := Run(Init(), es).ops[i];
            var needed := NeededTask(o.kind, o.restart);
            needed.Some? ==> exists n: nat :: ReportedAt(es, n, TaskKey(i, needed.value))
  {
    RunKeepsInv(es);
    RunKeepsGate(es);
    var s := Run(Init(), es);
    assert OpOk(s.ops[i]) && TasksReal(s, i);
    if NeededTask(s.ops[i].kind, s.ops[i].restart).Some? {
      var k := NeededTaskHasAStep(s.ops[i]);
      assert StepReal(s.ops[i], s.tasks, i, k);
      SuccessWasReported(es, TaskKey(i, NeededTask(s.ops[i].kind, s.ops[i].restart).value));
    }
  }

  /** An event that fails a pending task is a report, or ends the task's operation. */
  lemma FailsBy(s: State, e: Event, key: TaskKey)
    requires Inv(s) && TasksOk(s) && key in s.tasks && s.tasks[key].status.TaskPending?
    requires key in Next(s, e).tasks && Next(s, e).tasks[key].status.TaskFailed?
    ensures e == TaskResult(key, false) || (key.op < |Next(s, e).ops| && !Active(Next(s, e).ops[key.op]))
  {
    if e.DeleteDb? {
      DeleteFails(s, e, key);
    } else if e.Commit? && AboutToRun(s, e.who) {
      CommitFails(s, e, key);
    } else {
      FailsByReport(s, e, key);
    }
  }

  lemma FailsByReport(s: State, e: Event, key: TaskKey)
    requires Inv(s) && !e.DeleteDb? && (e.Commit? ==> !AboutToRun(s, e.who))
    requires key in s.tasks && s.tasks[key].status.TaskPending?
    requires key in Next(s, e).tasks && Next(s, e).tasks[key].status.TaskFailed?
    ensures e == TaskResult(key, false)
  {
  }

  lemma DeleteFails(s: State, e: Event, key: TaskKey)
    requires TasksOk(s) && e.DeleteDb? && key in s.tasks && s.tasks[key].status.TaskPending?
    requires key in Next(s, e).tasks && Next(s, e).tasks[key].status.TaskFailed?
    ensures key.op < |Next(s, e).ops| && !Active(Next(s, e).ops[key.op])
  {
    assert TaskOk(s.ops, key, s.tasks[key]);
  }

  lemma CommitFails(s: State, e: Event, key: TaskKey)
    requires Inv(s) && e.Commit? && AboutToRun(s, e.who) && key in s.tasks && s.tasks[key].status.TaskPending?
    requires key in Next(s, e).tasks && Next(s, e).tasks[key].status.TaskFailed?
    ensures key.op < |Next(s, e).ops| && Next(s, e).ops[key.op].status.Failed?
  {
    CommittedRows(s, e);
  }

  /** A pending task fails only as a host reports so, or as its operation ends. */
  lemma TaskFailsOnlyWith(es: seq<Event>, e: Event, key: TaskKey)
    requires var s := Run(Init(), es); key in s.tasks && s.tasks[key].status.TaskPending?
    ensures var s, s' := Run(Init(), es), Next(Run(Init(), es), e);
            && key in s'.tasks
            && (s'.tasks[key].status.TaskFailed? <==>
                  e == TaskResult(key, false) || (key.op < |s'.ops| && !Active(s'.ops[key.op])))
  {
    RunKeepsTasks(es);
    RunKeepsInv(es);
    RunKeepsGate(es);
    var s := Run(Init(), es);
    EventKeepsAnswers(s, e, key);
    StepKeepsTasks(s, e);
    if Next(s, e).tasks[key].status.TaskFailed? {
      FailsBy(s, e, key);
    } else {
      StillWanted(s, e, key);
    }
  }

  lemma StillWanted(s: State, e: Event, key: TaskKey)
    requires Inv(s) && TasksOk(s) && TasksOk(Next(s, e))
    requires key in s.tasks && s.tasks[key].status.TaskPending? && key in Next(s, e).tasks
    requires !Next(s, e).tasks[key].status.TaskFailed?
    ensures e != TaskResult(key, false) && key.op < |Next(s, e).ops| && Active(Next(s, e).ops[key.op])
  {
    assert TaskOk(s.ops, key, s.tasks[key]) && TaskOk(Next(s, e).ops, key, Next(s, e).tasks[key]);
    if Next(s, e).tasks[key].status.TaskSucceeded? {
      SuccessIsReported(s, e, key);
    }
  }
}
