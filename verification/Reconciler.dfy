/** The transactions behind the events of `Engine`, as changes to the tables. */
module Reconciler {
  import opened Common
  import opened Operations
  import opened Engine

  class Tables {
    var dbs: map<DbId, Db>
    var ops: seq<Op>
    var tasks: map<TaskKey, Task>
    var claims: map<ReconcilerId, Claim>

    ghost function State(): State
      reads this
    {
      Engine.State(dbs, ops, tasks, claims)
    }

    constructor ()
      ensures State() == Init()
    {
      dbs, ops, tasks, claims := map[], [], map[], map[];
    }

    /** Record an operation and its steps, one row at a time. */
    method CreateWith(db: DbId, kind: Kind, restart: bool, now: real) returns (id: OpId)
      modifies this`ops
      ensures id == |old(ops)|
      ensures State() == Next(old(State()), CreateOp(db, kind, restart, now))
    {
      id := |ops|;
      var rows: seq<StepRow> := [];
      for i := 0 to |Steps(kind)|
        invariant rows == NewSteps(kind, now)[..i]
      {
        rows := rows + [StepRow(Steps(kind)[i], StepPending, 0, now, now)];
      }
      assert rows == NewSteps(kind, now);
      ops := ops + [Op(db, kind, restart, Pending, now, now + TimeoutSeconds(kind) as real, rows)];
    }

    method FailActive(db: DbId)
      modifies this`ops
      ensures ops == Superseded(old(ops), db)
    {
      ghost var before := ops;
      for i := 0 to |ops|
        invariant |ops| == |before|
        invariant forall j | 0 <= j < i :: ops[j] == Superseded(before, db)[j]
        invariant forall j | i <= j < |ops| :: ops[j] == before[j]
      {
        if ops[i].db == db && Active(ops[i]) {
          ops := ops[i := ops[i].(status := Failed)];
        }
      }
    }

    /** End what the database is doing, so that a stuck operation cannot hold up its removal. */
    method Delete(db: DbId, now: real) returns (id: OpId)
      modifies this`ops, this`tasks
      ensures id == |old(ops)|
      ensures State() == Next(old(State()), DeleteDb(db, now))
    {
      FailActive(db);
      tasks := EndTasks(tasks, TasksOfDb(tasks, db));
      id := CreateWith(db, Kind.Delete, false, now);
    }

    /** Hand a host work and wait for it: the first attempt records the task. */
    method RunTask(i: OpId, kind: TaskKind) returns (outcome: Outcome)
      requires i < |ops|
      modifies this`tasks
      ensures outcome == TaskOutcome(old(tasks), TaskKey(i, kind))
      ensures tasks == if TaskKey(i, kind) in old(tasks) then old(tasks)
                       else old(tasks)[TaskKey(i, kind) := Task(ops[i].db, TaskPending)]
    {
      var key := TaskKey(i, kind);
      if key !in tasks {
        tasks := tasks[key := Task(ops[i].db, TaskPending)];
        return Wait;
      }
      match tasks[key].status {
        case TaskSucceeded => return Done;
        case TaskFailed => return Fail;
        case TaskPending => return Wait;
      }
    }

    method RunStep(i: OpId, k: nat, chosen: Outcome) returns (outcome: Outcome)
      requires i < |ops| && k < |ops[i].steps|
      modifies this`tasks, this`dbs
      ensures outcome == StepOutcome(old(State()), i, k, chosen)
      ensures tasks == WithTask(old(State()), i, k)
      ensures dbs == Opened(old(dbs), ops[i].db, ops[i].steps[k].name)
    {
      var name := ops[i].steps[k].name;
      var task := TaskOf(ops[i], name);
      if task.Some? {
        outcome := RunTask(i, task.value);
      } else if name.OpenAccess? {
        if ops[i].db in dbs {
          dbs := dbs[ops[i].db := dbs[ops[i].db].(accessOpen := true)];
        }
        outcome := Done;
      } else if name.Settle? || name.Activate? || name.ResizeRestart? {
        outcome := Done;
      } else {
        outcome := chosen;
      }
    }

    method FinishStep(i: OpId, k: nat, now: real)
      requires i < |ops| && k < |ops[i].steps|
      modifies this`ops
      ensures ops == old(ops)[i := Finished(old(ops)[i], k, now)]
    {
      var row := ops[i].steps[k];
      row := row.(status := StepDone, attempts := row.attempts + 1, finishedAt := now);
      ops := ops[i := ops[i].(steps := ops[i].steps[k := row], status := Running)];
      if FirstPending(ops[i].steps) == |ops[i].steps| {
        ops := ops[i := ops[i].(status := Succeeded)];
      }
    }

    method FailStep(i: OpId, k: nat, now: real)
      requires i < |ops| && k < |ops[i].steps|
      modifies this`ops, this`tasks
      ensures ops == old(ops)[i := FailedAt(old(ops)[i], k, now)]
      ensures tasks == EndTasks(old(tasks), TasksOfOp(old(tasks), i))
    {
      var row := ops[i].steps[k];
      row := row.(status := StepFailed, attempts := row.attempts + 1, finishedAt := now);
      ops := ops[i := ops[i].(steps := ops[i].steps[k := row])];
      ops := ops[i := ops[i].(status := Failed)];
      tasks := EndTasks(tasks, TasksOfOp(tasks, i));
    }

    /** One call that nothing interleaves with is a claim and its commit. */
    method StepOnce(who: ReconcilerId, i: OpId, now: real, chosen: Outcome) returns (ran: bool)
      requires who !in claims
      modifies this
      ensures ran == Claimable(old(State()), i, now)
      ensures State() == Next(Next(old(State()), ClaimStep(who, i, now)), Commit(who, chosen))
    {
      ghost var before := State();
      ClaimThenCommit(before, who, i, now, chosen);
      if i >= |ops| || !Active(ops[i]) || FirstPending(ops[i].steps) == |ops[i].steps| {
        return false;
      }
      var k := FirstPending(ops[i].steps);
      if ops[i].steps[k].notBefore > now || !NoEarlierActive(ops, i)
         || exists other <- claims :: claims[other].op == i && claims[other].index == k {
        return false;
      }
      var pastDeadline := ops[i].deadline < now;
      var outcome := RunStep(i, k, chosen);
      Record(i, k, now, outcome, pastDeadline);
      ran := true;
    }

    method Record(i: OpId, k: nat, now: real, outcome: Outcome, pastDeadline: bool)
      requires i < |ops| && k < |ops[i].steps|
      modifies this`ops, this`tasks
      ensures var after := AfterOutcome(old(ops)[i], Claim(i, k, now, pastDeadline), outcome);
              && ops == old(ops)[i := after]
              && tasks == if after.status.Failed? then EndTasks(old(tasks), TasksOfOp(old(tasks), i)) else old(tasks)
      ensures old(ops)[i].steps[k].status.StepPending? ==>
                && (StandsAs(ops[i], k, StepDone, now) <==> outcome.Done?)
                && (StandsAs(ops[i], k, StepFailed, now) <==> outcome.Fail? || (outcome.Wait? && pastDeadline))
                && (StandsAs(ops[i], k, StepPending, now) <==> outcome.Wait? && !pastDeadline)
    {
      if ops[i].steps[k].status.StepPending? {
        OutcomeStands(ops[i], Claim(i, k, now, pastDeadline), outcome);
      }
      if outcome.Done? {
        FinishStep(i, k, now);
      } else if outcome.Fail? || pastDeadline {
        FailStep(i, k, now);
      } else {
        var row := ops[i].steps[k];
        row := row.(attempts := row.attempts + 1, notBefore := now + WAIT_RETRY);
        ops := ops[i := ops[i].(status := Running, steps := ops[i].steps[k := row])];
      }
    }
  }

  lemma CommitOfClaim(s: State, who: ReconcilerId, c: Claim, chosen: Outcome)
    requires who !in s.claims && c.op < |s.ops| && c.index < |s.ops[c.op].steps| && Active(s.ops[c.op])
    ensures var after := AfterOutcome(s.ops[c.op], c, StepOutcome(s, c.op, c.index, chosen));
            var tasks := WithTask(s, c.op, c.index);
            Next(s.(claims := s.claims[who := c]), Commit(who, chosen))
            == State(Opened(s.dbs, s.ops[c.op].db, s.ops[c.op].steps[c.index].name),
                     s.ops[c.op := after],
                     if after.status.Failed? then EndTasks(tasks, TasksOfOp(tasks, c.op)) else tasks,
                     s.claims)
  {
    assert s.claims[who := c] - {who} == s.claims;
  }

  lemma ClaimThenCommit(s: State, who: ReconcilerId, i: OpId, now: real, chosen: Outcome)
    requires who !in s.claims
    ensures var s' := Next(Next(s, ClaimStep(who, i, now)), Commit(who, chosen));
            if Claimable(s, i, now) then
              var k := FirstPending(s.ops[i].steps);
              var after := AfterOutcome(s.ops[i], Claim(i, k, now, s.ops[i].deadline < now), StepOutcome(s, i, k, chosen));
              var tasks := WithTask(s, i, k);
              s' == State(Opened(s.dbs, s.ops[i].db, s.ops[i].steps[k].name),
                          s.ops[i := after],
                          if after.status.Failed? then EndTasks(tasks, TasksOfOp(tasks, i)) else tasks,
                          s.claims)
            else s' == s
  {
    if Claimable(s, i, now) {
      var k := FirstPending(s.ops[i].steps);
      CommitOfClaim(s, who, Claim(i, k, now, s.ops[i].deadline < now), chosen);
    }
  }
}
