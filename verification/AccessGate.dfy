/**
Clients stay out of a database until a restorable backup of it exists. The
allowlist a host is sent is empty until a backup task of the operation that made
the database has been reported as succeeded.
*/
module AccessGate {
  import opened Common
  import opened Operations
  import opened Engine

  /** The allowlist in the desired state of a host that runs a node of `db`. */
  function SentCidrs(s: State, db: DbId): seq<string> {
    if db in s.dbs && s.dbs[db].accessOpen then s.dbs[db].allowedCidrs else []
  }

  predicate MakesDatabase(kind: Kind) {
    kind.Create? || kind.PromoteReplica?
  }

  /** `i` made `db`, and its backup succeeded. */
  predicate BackedUp(s: State, db: DbId, i: OpId) {
    && i < |s.ops|
    && s.ops[i].db == db
    && MakesDatabase(s.ops[i].kind)
    && TaskKey(i, BackupTask) in s.tasks
    && s.tasks[TaskKey(i, BackupTask)].status.TaskSucceeded?
  }

  // ---- The answer to a task stands ----

  predicate AnswerKept(t: map<TaskKey, Task>, t': map<TaskKey, Task>, key: TaskKey) {
    key in t ==> key in t' && (!t[key].status.TaskPending? ==> t'[key] == t[key])
  }

  lemma EventKeepsAnswers(s: State, e: Event, key: TaskKey)
    ensures AnswerKept(s.tasks, Next(s, e).tasks, key)
  {
  }

  /** Late and repeated results change nothing: a task that has an answer keeps it. */
  lemma {:induction false} FirstAnswerStands(es: seq<Event>, n: nat, key: TaskKey)
    requires n <= |es|
    ensures AnswerKept(Run(Init(), es[..n]).tasks, Run(Init(), es).tasks, key)
  {
    if n == |es| {
      assert es[..n] == es;
    } else {
      var most := es[..|es| - 1];
      assert most[..n] == es[..n];
      FirstAnswerStands(most, n, key);
      EventKeepsAnswers(Run(Init(), most), es[|es| - 1], key);
    }
  }

  /** The `n`th event is a host's report that the task succeeded, and the task was waiting for one. */
  predicate ReportedAt(es: seq<Event>, n: nat, key: TaskKey) {
    && n < |es|
    && es[n] == TaskResult(key, true)
    && key in Run(Init(), es[..n]).tasks
    && Run(Init(), es[..n]).tasks[key].status.TaskPending?
  }

  lemma SuccessIsReported(s: State, e: Event, key: TaskKey)
    requires key in Next(s, e).tasks && Next(s, e).tasks[key].status.TaskSucceeded?
    requires !(key in s.tasks && s.tasks[key].status.TaskSucceeded?)
    ensures e == TaskResult(key, true) && key in s.tasks && s.tasks[key].status.TaskPending?
  {
  }

  lemma StillReported(es: seq<Event>, n: nat, key: TaskKey)
    requires es != [] && ReportedAt(es[..|es| - 1], n, key)
    ensures ReportedAt(es, n, key)
  {
    assert es[..|es| - 1][..n] == es[..n];
  }

  /** Nothing forges a success: some host reported it while the task was pending. */
  lemma {:induction false} SuccessWasReported(es: seq<Event>, key: TaskKey)
    requires key in Run(Init(), es).tasks && Run(Init(), es).tasks[key].status.TaskSucceeded?
    ensures exists n: nat :: ReportedAt(es, n, key)
  {
    if es != [] {
      var most, e := es[..|es| - 1], es[|es| - 1];
      var s := Run(Init(), most);
      if key in s.tasks && s.tasks[key].status.TaskSucceeded? {
        SuccessWasReported(most, key);
        var n: nat :| ReportedAt(most, n, key);
        StillReported(es, n, key);
      } else {
        SuccessIsReported(s, e, key);
        assert ReportedAt(es, |most|, key);
      }
    }
  }

  // ---- The gate ----

  /** A done step that hands out a task means the task succeeded. */
  predicate StepReal(o: Op, tasks: map<TaskKey, Task>, i: OpId, k: nat) {
    k < |o.steps| && o.steps[k].status.StepDone? && TaskOf(o, o.steps[k].name).Some? ==>
      HasStatus(tasks, TaskKey(i, TaskOf(o, o.steps[k].name).value), TaskSucceeded)
  }

  predicate TasksReal(s: State, i: OpId) {
    i < |s.ops| ==> forall k | 0 <= k < |s.ops[i].steps| :: StepReal(s.ops[i], s.tasks, i, k)
  }

  ghost predicate GateOk(s: State) {
    && (forall i | 0 <= i < |s.ops| :: TasksReal(s, i))
    && (forall db | db in s.dbs && s.dbs[db].accessOpen :: exists i: nat :: BackedUp(s, db, i))
  }

  /** A row that a commit does not run stays as it is, and so does what its task is. */
  lemma RowKept(s: State, e: Event, i: OpId, k: nat)
    requires Inv(s) && i < |s.ops| && k < |s.ops[i].steps|
    requires RunsStepOf(s, e, i) ==> k != FirstPending(s.ops[i].steps)
    ensures i < |Next(s, e).ops|
    ensures var o := Next(s, e).ops[i];
            o.restart == s.ops[i].restart && |o.steps| == |s.ops[i].steps| && o.steps[k] == s.ops[i].steps[k]
  {
    EventMoves(s, e, i);
  }

  lemma RealCarries(o: Op, o': Op, tasks: map<TaskKey, Task>, tasks': map<TaskKey, Task>, i: OpId, k: nat)
    requires k < |o.steps| == |o'.steps| && o'.steps[k] == o.steps[k] && o'.restart == o.restart
    requires StepReal(o, tasks, i, k) && forall key :: AnswerKept(tasks, tasks', key)
    ensures StepReal(o', tasks', i, k)
  {
    var task := TaskOf(o, o.steps[k].name);
    assert task.Some? ==> AnswerKept(tasks, tasks', TaskKey(i, task.value));
  }

  lemma AllAnswersKept(s: State, e: Event)
    ensures forall key :: AnswerKept(s.tasks, Next(s, e).tasks, key)
  {
    forall key
      ensures AnswerKept(s.tasks, Next(s, e).tasks, key)
    {
      EventKeepsAnswers(s, e, key);
    }
  }

  lemma TasksStayReal(s: State, e: Event, i: OpId)
    requires Inv(s) && GateOk(s) && i < |s.ops|
    ensures TasksReal(Next(s, e), i)
  {
    var s' := Next(s, e);
    assert TasksReal(s, i);
    AllAnswersKept(s, e);
    EventMoves(s, e, i);
    forall k | 0 <= k < |s'.ops[i].steps|
      ensures StepReal(s'.ops[i], s'.tasks, i, k)
    {
      if RunsStepOf(s, e, i) && k == FirstPending(s.ops[i].steps) {
        FinishedByTask(s, e, i);
      } else {
        RowKept(s, e, i, k);
        RealCarries(s.ops[i], s'.ops[i], s.tasks, s'.tasks, i, k);
      }
    }
  }

  /** If the step a commit finishes handed out a task, the task had succeeded. */
  lemma FinishedByTask(s: State, e: Event, i: OpId)
    requires Inv(s) && RunsStepOf(s, e, i)
    ensures FirstPending(s.ops[i].steps) < |s.ops[i].steps| && i < |Next(s, e).ops|
    ensures StepReal(Next(s, e).ops[i], Next(s, e).tasks, i, FirstPending(s.ops[i].steps))
  {
    var c := s.claims[e.who];
    assert ClaimOk(s.ops, c);
    CommittedIs(s, e, i);
    AllAnswersKept(s, e);
    DoneIsReal(s.ops[i], Next(s, e).ops[i], s.tasks, Next(s, e).tasks, i, c.index);
  }

  lemma DoneIsReal(o: Op, o': Op, tasks: map<TaskKey, Task>, tasks': map<TaskKey, Task>, i: OpId, k: nat)
    requires k < |o.steps| == |o'.steps| && o'.steps[k].name == o.steps[k].name && o'.restart == o.restart
    requires o'.steps[k].status.StepDone? && TaskOf(o, o.steps[k].name).Some? ==>
               HasStatus(tasks, TaskKey(i, TaskOf(o, o.steps[k].name).value), TaskSucceeded)
    requires forall key :: AnswerKept(tasks, tasks', key)
    ensures StepReal(o', tasks', i, k)
  {
    var task := TaskOf(o, o.steps[k].name);
    assert task.Some? ==> AnswerKept(tasks, tasks', TaskKey(i, task.value));
  }

  /** A commit leaves the step's name and the operation's shape, and marks it done only if its outcome was. */
  lemma CommittedIs(s: State, e: Event, i: OpId)
    requires Inv(s) && RunsStepOf(s, e, i) && AboutToRun(s, e.who)
    ensures i < |Next(s, e).ops|
    ensures var k := s.claims[e.who].index;
            var o, o' := s.ops[i], Next(s, e).ops[i];
            && k < |o'.steps| == |o.steps| && o'.steps[k].name == o.steps[k].name && o'.restart == o.restart
            && (o'.steps[k].status.StepDone? && TaskOf(o, o.steps[k].name).Some? ==>
                  HasStatus(s.tasks, TaskKey(i, TaskOf(o, o.steps[k].name).value), TaskSucceeded))
  {
  }

  lemma NewOpsTasks(s: State, e: Event, i: OpId)
    requires |s.ops| <= i < |Next(s, e).ops|
    ensures TasksReal(Next(s, e), i)
  {
  }

  lemma BackedUpStays(s: State, e: Event, db: DbId, i: OpId)
    requires Inv(s) && BackedUp(s, db, i)
    ensures BackedUp(Next(s, e), db, i)
  {
    EventKeepsAnswers(s, e, TaskKey(i, BackupTask));
    EventMoves(s, e, i);
  }

  /** The claim is of an `open_access` step of the database's operation. */
  predicate OpensNext(s: State, e: Event, db: DbId) {
    && e.Commit? && AboutToRun(s, e.who)
    && s.ops[s.claims[e.who].op].db == db
    && s.ops[s.claims[e.who].op].steps[s.claims[e.who].index].name == OpenAccess
  }

  lemma CommitMovesRow(s: State, e: Event, db: DbId)
    requires Inv(s) && e.Commit?
    ensures db in Next(s, e).dbs <==> db in s.dbs
    ensures db in s.dbs ==>
              Next(s, e).dbs[db] == s.dbs[db].(accessOpen := s.dbs[db].accessOpen || OpensNext(s, e, db))
  {
    if e.who in s.claims {
      assert ClaimOk(s.ops, s.claims[e.who]);
    }
  }

  /** One event changes the row only where it puts a list or opens the database. */
  lemma RowMoves(s: State, e: Event, db: DbId)
    requires Inv(s)
    ensures var s' := Next(s, e);
            if db !in s.dbs then
              if e.CreateDb? && e.db == db then db in s'.dbs && s'.dbs[db] == Db(false, e.cidrs) else db !in s'.dbs
            else
              && db in s'.dbs
              && s'.dbs[db].allowedCidrs == (if e.PutAllowlist? && e.db == db then e.cidrs else s.dbs[db].allowedCidrs)
              && (s'.dbs[db].accessOpen <==> s.dbs[db].accessOpen || OpensNext(s, e, db))
  {
    if e.Commit? {
      CommitMovesRow(s, e, db);
    }
  }

  /** The step that opens a database runs after a backup of that database succeeded. */
  lemma OpenedAfterBackup(s: State, e: Event, db: DbId)
    requires Inv(s) && GateOk(s)
    requires db in Next(s, e).dbs && Next(s, e).dbs[db].accessOpen
    requires !(db in s.dbs && s.dbs[db].accessOpen)
    ensures exists i: nat :: BackedUp(s, db, i)
  {
    RowMoves(s, e, db);
    BackedUpBeforeOpening(s, e, db);
  }

  lemma BackedUpBeforeOpening(s: State, e: Event, db: DbId)
    requires Inv(s) && GateOk(s) && OpensNext(s, e, db)
    ensures exists i: nat :: BackedUp(s, db, i)
  {
    var c := s.claims[e.who];
    var o := s.ops[c.op];
    assert ClaimOk(s.ops, c) && OpOk(o) && TasksReal(s, c.op);
    AccessFollowsBackup(o.kind, c.index);
    var j :| 0 <= j < |Steps(o.kind)| && j < c.index && Steps(o.kind)[j] == FirstBackup;
    assert o.steps[j].status.StepDone? && o.steps[j].name.FirstBackup? && StepReal(s.ops[c.op], s.tasks, c.op, j);
    assert BackedUp(s, db, c.op);
  }

  lemma StepKeepsGate(s: State, e: Event)
    requires Inv(s) && GateOk(s)
    ensures GateOk(Next(s, e))
  {
    var s' := Next(s, e);
    forall i | 0 <= i < |s'.ops|
      ensures TasksReal(s', i)
    {
      if i < |s.ops| {
        TasksStayReal(s, e, i);
      } else {
        NewOpsTasks(s, e, i);
      }
    }
    forall db | db in s'.dbs && s'.dbs[db].accessOpen
      ensures exists i: nat :: BackedUp(s', db, i)
    {
      if !(db in s.dbs && s.dbs[db].accessOpen) {
        OpenedAfterBackup(s, e, db);
      }
      var i: nat :| BackedUp(s, db, i);
      BackedUpStays(s, e, db, i);
    }
  }

  lemma {:induction false} RunKeepsGate(es: seq<Event>)
    ensures GateOk(Run(Init(), es))
  {
    if es != [] {
      RunKeepsGate(es[..|es| - 1]);
      RunKeepsInv(es[..|es| - 1]);
      StepKeepsGate(Run(Init(), es[..|es| - 1]), es[|es| - 1]);
    }
  }

  /**
  Whenever a host is sent a non-empty allowlist for a database, the run holds an earlier
  report that the backup task of an operation that made the database succeeded.
  */
  lemma AccessNeedsABackup(es: seq<Event>, db: DbId)
    ensures var s := Run(Init(), es);
            SentCidrs(s, db) != [] ==>
              exists i: nat, n: nat :: BackedUp(s, db, i) && ReportedAt(es, n, TaskKey(i, BackupTask))
  {
    RunKeepsGate(es);
    var s := Run(Init(), es);
    if SentCidrs(s, db) != [] {
      var i: nat :| BackedUp(s, db, i);
      SuccessWasReported(es, TaskKey(i, BackupTask));
    }
  }

  // ---- What a success means ----

  /**
  In every run, each step an operation is there for is done if the operation has succeeded,
  and a host reported that the task succeeded if the step hands one out.
  */
  lemma SuccessMeansWorkDone(es: seq<Event>, i: OpId, name: StepName)
    requires var s := Run(Init(), es); i < |s.ops| && s.ops[i].status.Succeeded? && name in WorkOf(s.ops[i].kind)
    ensures var s := Run(Init(), es);
            && (exists k | 0 <= k < |s.ops[i].steps| :: s.ops[i].steps[k].name == name && s.ops[i].steps[k].status.StepDone?)
            && (TaskOf(s.ops[i], name).Some? ==>
                  exists n: nat :: ReportedAt(es, n, TaskKey(i, TaskOf(s.ops[i], name).value)))
  {
    RunKeepsInv(es);
    RunKeepsGate(es);
    var s := Run(Init(), es);
    assert OpOk(s.ops[i]) && TasksReal(s, i);
    WorkIsListed(s.ops[i].kind, name);
    var k :| 0 <= k < |Steps(s.ops[i].kind)| && Steps(s.ops[i].kind)[k] == name;
    assert s.ops[i].steps[k].name == name && StepReal(s.ops[i], s.tasks, i, k);
    if TaskOf(s.ops[i], name).Some? {
      SuccessWasReported(es, TaskKey(i, TaskOf(s.ops[i], name).value));
    }
  }

  // ---- What is sent, exactly ----

  /** The allowlist last put, of a database that was created by then. */
  function LastPut(es: seq<Event>, db: DbId): Option<seq<string>> {
    if es == [] then None
    else
      var before := LastPut(es[..|es| - 1], db);
      match es[|es| - 1]
      case CreateDb(id, cidrs) => if id == db && before.None? then Some(cidrs) else before
      case PutAllowlist(id, cidrs) => if id == db && before.Some? then Some(cidrs) else before
      case _ => before
  }

  /** The `n`th event commits an `open_access` step of the database's operation, and the database is on record. */
  predicate OpensAt(es: seq<Event>, n: nat, db: DbId) {
    && n < |es| && es[n].Commit?
    && var s := Run(Init(), es[..n]);
    && AboutToRun(s, es[n].who)
    && var c := s.claims[es[n].who];
    && s.ops[c.op].db == db && s.ops[c.op].steps[c.index].name == OpenAccess
    && db in s.dbs
  }

  ghost predicate Opens(es: seq<Event>, db: DbId) {
    exists n: nat :: OpensAt(es, n, db)
  }

  /** The row of the database says what was put, and is open exactly when a step opened it. */
  ghost predicate RowIs(es: seq<Event>, db: DbId) {
    var s := Run(Init(), es);
    match LastPut(es, db)
    case None => db !in s.dbs && !Opens(es, db)
    case Some(cidrs) =>
      db in s.dbs && s.dbs[db].allowedCidrs == cidrs && (s.dbs[db].accessOpen <==> Opens(es, db))
  }

  lemma StillOpens(es: seq<Event>, n: nat, db: DbId)
    requires es != [] && n < |es| - 1
    ensures OpensAt(es, n, db) <==> OpensAt(es[..|es| - 1], n, db)
  {
    assert es[..|es| - 1][..n] == es[..n];
  }

  lemma OpensBefore(es: seq<Event>, db: DbId)
    requires es != []
    ensures Opens(es, db) <==> OpensAt(es, |es| - 1, db) || Opens(es[..|es| - 1], db)
  {
    if n: nat :| n < |es| - 1 && OpensAt(es, n, db) {
      StillOpens(es, n, db);
    }
    var most := es[..|es| - 1];
    if n: nat :| OpensAt(most, n, db) {
      StillOpens(es, n, db);
    }
  }

  lemma {:induction false} RowIsAsPut(es: seq<Event>, db: DbId)
    ensures RowIs(es, db)
  {
    if es != [] {
      var m := |es| - 1;
      RowIsAsPut(es[..m], db);
      RunKeepsInv(es[..m]);
      RowMoves(Run(Init(), es[..m]), es[m], db);
      OpensBefore(es, db);
    }
  }

  /** In every run, hosts are sent the allowlist last put if a step has opened the database, and nothing if none has. */
  lemma SentExactly(es: seq<Event>, db: DbId)
    ensures SentCidrs(Run(Init(), es), db)
         == if LastPut(es, db).Some? && Opens(es, db) then LastPut(es, db).value else []
  {
    RowIsAsPut(es, db);
  }
}
