/** Progress of the engine: every kind of operation can come to its end. */
module EngineProgress {
  import opened Common
  import opened Operations
  import opened Engine

  /** The first `k` steps are done, and the others can be tried at `now`. */
  predicate DoneTo(o: Op, k: nat, now: real) {
    && k <= |o.steps|
    && (forall j | 0 <= j < k :: o.steps[j].status.StepDone?)
    && (forall j | k <= j < |o.steps| :: o.steps[j].status.StepPending? && o.steps[j].notBefore <= now)
    && (if k < |o.steps| then Active(o) else o.status.Succeeded?)
  }

  /** There is one operation, nothing is claimed, and no task is without an answer or failed. */
  predicate Reached(s: State, k: nat, now: real) {
    && |s.ops| == 1 && s.claims == map[]
    && (forall key <- s.tasks :: s.tasks[key].status.TaskSucceeded?)
    && DoneTo(s.ops[0], k, now)
  }

  /** Nothing that stays the same while steps are run has changed. */
  predicate SameOp(s: State, s': State) {
    && |s.ops| == |s'.ops| == 1 && |s.ops[0].steps| == |s'.ops[0].steps|
    && s'.ops[0] == s.ops[0].(status := s'.ops[0].status, steps := s'.ops[0].steps)
  }

  lemma FirstPendingIs(steps: seq<StepRow>, k: nat)
    requires k < |steps| && steps[k].status.StepPending?
    requires forall j | 0 <= j < k :: steps[j].status.StepDone?
    ensures FirstPending(steps) == k
  {
  }

  lemma RunExtend(es: seq<Event>, e: Event)
    ensures Run(Init(), es + [e]) == Next(Run(Init(), es), e)
  {
    assert (es + [e])[..|es|] == es;
  }

  /** A claim and its commit. */
  function Tried(s: State, now: real): State {
    Next(Next(s, ClaimStep(0, 0, now)), Commit(0, Done))
  }

  lemma RunTried(es: seq<Event>, now: real) returns (es': seq<Event>)
    ensures Run(Init(), es') == Tried(Run(Init(), es), now)
  {
    RunExtend(es, ClaimStep(0, 0, now));
    RunExtend(es + [ClaimStep(0, 0, now)], Commit(0, Done));
    es' := es + [ClaimStep(0, 0, now)] + [Commit(0, Done)];
  }

  /** The step at `k` hands out a task that is not on record yet. */
  predicate NeedsTask(s: State, k: nat) {
    && |s.ops| == 1 && k < |s.ops[0].steps|
    && TaskOf(s.ops[0], s.ops[0].steps[k].name).Some?
    && TaskKey(0, TaskOf(s.ops[0], s.ops[0].steps[k].name).value) !in s.tasks
  }

  lemma TriedIs(s: State, k: nat, now: real)
    requires Reached(s, k, now) && k < |s.ops[0].steps|
    ensures var late := s.ops[0].deadline < now;
            var after := AfterOutcome(s.ops[0], Claim(0, k, now, late), StepOutcome(s, 0, k, Done));
            var tasks := WithTask(s, 0, k);
            && Tried(s, now).ops == [after] && Tried(s, now).claims == map[]
            && Tried(s, now).tasks == if after.status.Failed? then EndTasks(tasks, TasksOfOp(tasks, 0)) else tasks
  {
    ClaimedIs(s, k, now);
    var c := Claim(0, k, now, s.ops[0].deadline < now);
    assert map[0 := c] - {0} == map[];
    assert s.ops[0 := AfterOutcome(s.ops[0], c, StepOutcome(s, 0, k, Done))]
        == [AfterOutcome(s.ops[0], c, StepOutcome(s, 0, k, Done))];
  }

  lemma ClaimedIs(s: State, k: nat, now: real)
    requires Reached(s, k, now) && k < |s.ops[0].steps|
    ensures Next(s, ClaimStep(0, 0, now)) == s.(claims := map[0 := Claim(0, k, now, s.ops[0].deadline < now)])
  {
    FirstPendingIs(s.ops[0].steps, k);
  }

  lemma FinishedIs(o: Op, k: nat, now: real)
    requires DoneTo(o, k, now) && k < |o.steps|
    ensures DoneTo(Finished(o, k, now), k + 1, now)
  {
    var steps := Finished(o, k, now).steps;
    if k + 1 < |steps| {
      FirstPendingIs(steps, k + 1);
    }
  }

  lemma StepGoesThrough(s: State, k: nat, now: real)
    requires Reached(s, k, now) && k < |s.ops[0].steps| && !NeedsTask(s, k)
    ensures Reached(Tried(s, now), k + 1, now) && SameOp(s, Tried(s, now))
  {
    TriedIs(s, k, now);
    assert StepOutcome(s, 0, k, Done) == Done;
    FinishedIs(s.ops[0], k, now);
  }

  /** The first try hands the task out, and a host reports that it succeeded. */
  lemma TaskIsAnswered(s: State, k: nat, now: real)
    requires Reached(s, k, now) && k < |s.ops[0].steps| && NeedsTask(s, k) && now <= s.ops[0].deadline
    ensures var key := TaskKey(0, TaskOf(s.ops[0], s.ops[0].steps[k].name).value);
            var s' := Next(Tried(s, now), TaskResult(key, true));
            Reached(s', k, now + 1.0) && SameOp(s, s') && !NeedsTask(s', k)
  {
    TriedIs(s, k, now);
    assert StepOutcome(s, 0, k, Done) == Wait;
  }

  lemma StepIsDone(es: seq<Event>, k: nat, now: real) returns (es': seq<Event>)
    requires Reached(Run(Init(), es), k, now) && k < |Run(Init(), es).ops[0].steps|
    requires now <= Run(Init(), es).ops[0].deadline
    ensures Reached(Run(Init(), es'), k + 1, now + 1.0) && SameOp(Run(Init(), es), Run(Init(), es'))
  {
    var s := Run(Init(), es);
    if NeedsTask(s, k) {
      TaskIsAnswered(s, k, now);
      es' := RunTried(es, now);
      var answer := TaskResult(TaskKey(0, TaskOf(s.ops[0], s.ops[0].steps[k].name).value), true);
      RunExtend(es', answer);
      es' := es' + [answer];
      StepGoesThrough(Run(Init(), es'), k, now + 1.0);
      es' := RunTried(es', now + 1.0);
    } else {
      StepGoesThrough(s, k, now);
      es' := RunTried(es, now);
    }
  }

  lemma {:induction false} AllStepsAreDone(es: seq<Event>, k: nat, now: real) returns (es': seq<Event>)
    requires Reached(Run(Init(), es), k, now)
    requires var o := Run(Init(), es).ops[0]; now + (|o.steps| - k) as real <= o.deadline
    ensures Run(Init(), es').ops != [] && Run(Init(), es').ops[0].status.Succeeded?
    ensures SameOp(Run(Init(), es), Run(Init(), es'))
    decreases |Run(Init(), es).ops[0].steps| - k
  {
    es' := es;
    if k < |Run(Init(), es).ops[0].steps| {
      es' := StepIsDone(es, k, now);
      es' := AllStepsAreDone(es', k + 1, now + 1.0);
    }
  }

  /** From an empty state and for every kind, an operation of that kind can succeed. */
  lemma EveryKindCanSucceed(db: DbId, kind: Kind, restart: bool, now: real) returns (es: seq<Event>)
    ensures var s := Run(Init(), es);
            |s.ops| == 1 && s.ops[0].db == db && s.ops[0].kind == kind && s.ops[0].status.Succeeded?
  {
    es := [CreateOp(db, kind, restart, now)];
    assert Run(Init(), es) == Next(Run(Init(), []), CreateOp(db, kind, restart, now));
    assert Run(Init(), es).ops == [NewOp(db, kind, restart, now)];
    es := AllStepsAreDone(es, 0, now);
  }
}
