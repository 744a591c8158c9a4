/**
How many committed claims an operation can take. Waits of one step are at least
`WAIT_RETRY` apart, and a wait past the deadline fails the operation.
*/
module EngineBound {
  import opened Operations
  import opened Engine

  /** Claims an operation's steps have had, each of which ended in a commit. */
  function Attempts(steps: seq<StepRow>): nat {
    if steps == [] then 0 else Attempts(steps[..|steps| - 1]) + steps[|steps| - 1].attempts
  }

  /** The events of `es` that ran a step of `i` and committed. */
  function CommitsOf(es: seq<Event>, i: OpId): nat {
    if es == [] then 0
    else CommitsOf(es[..|es| - 1], i)
         + if RunsStepOf(Run(Init(), es[..|es| - 1]), es[|es| - 1], i) then 1 else 0
  }

  /** When the step before the `k`th ended. */
  function StartedAfter(o: Op, k: nat): real
    requires k <= |o.steps|
  {
    if k == 0 then o.created else o.steps[k - 1].finishedAt
  }

  /** How far a claim can be dated before the end of the step before: a transaction's clock stands at its start. */
  type Skew = x: real | 0.0 <= x

  /** The clock a claim reads is behind the end of the step before by no more than the skew. */
  predicate ClockOk(s: State, e: Event, skew: Skew) {
    e.ClaimStep? && Claimable(s, e.op, e.now) ==>
      StartedAfter(s.ops[e.op], FirstPending(s.ops[e.op].steps)) <= e.now + skew
  }

  ghost predicate Clocked(es: seq<Event>, skew: Skew) {
    forall n | 0 <= n < |es| :: ClockOk(Run(Init(), es[..n]), es[n], skew)
  }

  function Min(a: real, b: real): real { if a < b then a else b }

  /** The last moment a wait can put a step off to. */
  function LastRetry(o: Op): real { o.deadline + WAIT_RETRY }

  /** The skews of `k` steps, added up. */
  function Drift(k: nat, skew: Skew): Skew {
    if k == 0 then 0.0 else Drift(k - 1, skew) + skew
  }

  lemma {:induction false} DriftGrows(k: nat, n: nat, skew: Skew)
    requires k <= n
    ensures Drift(k, skew) <= Drift(n, skew)
  {
    if k < n {
      DriftGrows(k, n - 1, skew);
    }
  }

  /** Each wait so far has taken a second of the time up to the last retry, but for the skews. */
  predicate OpTimed(o: Op, skew: Skew) {
    && o.deadline == o.created + TimeoutSeconds(o.kind) as real
    && (Active(o) ==>
          var k := FirstPending(o.steps);
          && k < |o.steps|
          && (Attempts(o.steps[..k]) - k) as real <= Min(StartedAfter(o, k), LastRetry(o)) - o.created + Drift(k, skew)
          && (o.steps[k].attempts > 0 ==>
                StartedAfter(o, k) - skew + o.steps[k].attempts as real <= o.steps[k].notBefore <= LastRetry(o))
          && (o.steps[k].attempts == 0 ==> o.steps[k].notBefore == o.created)
          && forall j | k < j < |o.steps| :: o.steps[j].notBefore == o.created)
    && (!Active(o) ==> Attempts(o.steps) as real <= (TimeoutSeconds(o.kind) + |o.steps| + 1) as real + Drift(|o.steps|, skew))
  }

  lemma {:induction false} AttemptsUpdate(steps: seq<StepRow>, k: nat, row: StepRow)
    requires k < |steps|
    ensures Attempts(steps[k := row]) == Attempts(steps) - steps[k].attempts + row.attempts
  {
    var n := |steps| - 1;
    if k == n {
      assert steps[k := row][..n] == steps[..n];
    } else {
      assert steps[k := row][..n] == steps[..n][k := row];
      AttemptsUpdate(steps[..n], k, row);
    }
  }

  lemma {:induction false} AttemptsOfRest(steps: seq<StepRow>, k: nat)
    requires k < |steps|
    requires forall j | k < j < |steps| :: steps[j].attempts == 0
    ensures Attempts(steps) == Attempts(steps[..k]) + steps[k].attempts
  {
    var n := |steps| - 1;
    if k < n {
      assert steps[..n][..k] == steps[..k];
      AttemptsOfRest(steps[..n], k);
    }
  }

  lemma ActiveBound(o: Op, skew: Skew)
    requires OpOk(o) && OpTimed(o, skew) && Active(o)
    ensures var k := FirstPending(o.steps);
            Attempts(o.steps) as real <= (TimeoutSeconds(o.kind) + k + 1) as real + Drift(k + 1, skew)
  {
    AttemptsOfRest(o.steps, FirstPending(o.steps));
  }

  lemma NewOpTimed(db: DbId, kind: Kind, restart: bool, now: real, skew: Skew)
    ensures OpTimed(NewOp(db, kind, restart, now), skew)
  {
    var o := NewOp(db, kind, restart, now);
    NewOpOk(db, kind, restart, now);
    assert FirstPending(o.steps) == 0;
    NoAttempts(o.steps);
  }

  lemma {:induction false} NoAttempts(steps: seq<StepRow>)
    requires forall j | 0 <= j < |steps| :: steps[j].attempts == 0
    ensures Attempts(steps) == 0
  {
    if steps != [] {
      NoAttempts(steps[..|steps| - 1]);
    }
  }

  /** The claim's clock respects both the step's delay and the end of the step before. */
  predicate MayRunAt(o: Op, now: real, skew: Skew) {
    && OpOk(o) && OpTimed(o, skew) && Active(o)
    && o.steps[FirstPending(o.steps)].notBefore <= now
    && StartedAfter(o, FirstPending(o.steps)) <= now + skew
  }

  lemma OneMoreAttempt(o: Op, row: StepRow)
    requires OpOk(o) && Active(o)
    requires row.attempts == o.steps[FirstPending(o.steps)].attempts + 1
    ensures Attempts(o.steps[FirstPending(o.steps) := row]) == Attempts(o.steps) + 1
  {
    AttemptsUpdate(o.steps, FirstPending(o.steps), row);
  }

  lemma WaitTimed(o: Op, now: real, skew: Skew)
    requires MayRunAt(o, now, skew) && now <= o.deadline
    ensures OpTimed(Waited(o, FirstPending(o.steps), now), skew)
  {
    var k := FirstPending(o.steps);
    var o' := Waited(o, k, now);
    assert o'.steps[k].status.StepPending?;
    assert FirstPending(o'.steps) == k;
    assert o'.steps[..k] == o.steps[..k];
  }

  lemma EndTimed(o: Op, o': Op, skew: Skew)
    requires OpOk(o) && OpTimed(o, skew) && Active(o)
    requires !Active(o') && o'.kind == o.kind && o'.created == o.created && o'.deadline == o.deadline
    requires |o'.steps| == |o.steps| && Attempts(o'.steps) <= Attempts(o.steps) + 1
    ensures OpTimed(o', skew)
  {
    ActiveBound(o, skew);
    DriftGrows(FirstPending(o.steps) + 1, |o.steps|, skew);
  }

  lemma FinishTimed(o: Op, now: real, skew: Skew)
    requires MayRunAt(o, now, skew) && Active(Finished(o, FirstPending(o.steps), now))
    ensures OpTimed(Finished(o, FirstPending(o.steps), now), skew)
  {
    var k := FirstPending(o.steps);
    var o' := Finished(o, k, now);
    assert FirstPending(o'.steps) < |o'.steps|;
    assert o'.steps[k].status.StepDone? && o'.steps[k + 1] == o.steps[k + 1];
    assert FirstPending(o'.steps) == k + 1;
    assert o'.steps[..k + 1][..k] == o.steps[..k];
    assert Attempts(o'.steps[..k + 1]) == Attempts(o.steps[..k]) + o.steps[k].attempts + 1;
  }

  lemma ExecuteTimed(o: Op, o': Op, now: real, skew: Skew)
    requires MayRunAt(o, now, skew)
    requires var k := FirstPending(o.steps);
             o' == Finished(o, k, now) || o' == FailedAt(o, k, now) || (now <= o.deadline && o' == Waited(o, k, now))
    ensures OpTimed(o', skew) && Attempts(o'.steps) == Attempts(o.steps) + 1
  {
    var k := FirstPending(o.steps);
    OneMoreAttempt(o, o'.steps[k]);
    if !Active(o') {
      EndTimed(o, o', skew);
    } else if o' == Finished(o, k, now) {
      FinishTimed(o, now, skew);
    } else {
      WaitTimed(o, now, skew);
    }
  }

  // ---- Over a run ----

  predicate ClaimTimed(ops: seq<Op>, c: Claim, skew: Skew) {
    c.op < |ops| && Active(ops[c.op]) ==> StartedAfter(ops[c.op], FirstPending(ops[c.op].steps)) <= c.now + skew
  }

  predicate Timed(s: State, skew: Skew) {
    && (forall i | 0 <= i < |s.ops| :: OpTimed(s.ops[i], skew))
    && (forall who <- s.claims :: ClaimTimed(s.ops, s.claims[who], skew))
  }

  lemma CommitTimed(s: State, e: Event, i: OpId, skew: Skew)
    requires Inv(s) && Timed(s, skew) && RunsStepOf(s, e, i)
    ensures OpTimed(Next(s, e).ops[i], skew)
  {
    var c := s.claims[e.who];
    assert ClaimOk(s.ops, c) && ClaimTimed(s.ops, c, skew);
    ExecuteTimed(s.ops[i], Next(s, e).ops[i], c.now, skew);
  }

  lemma OpStaysTimed(s: State, e: Event, i: OpId, skew: Skew)
    requires Inv(s) && Timed(s, skew) && i < |s.ops|
    ensures i < |Next(s, e).ops| && OpTimed(Next(s, e).ops[i], skew)
  {
    EventMoves(s, e, i);
    if RunsStepOf(s, e, i) {
      CommitTimed(s, e, i, skew);
    } else if Next(s, e).ops[i] != s.ops[i] {
      EndTimed(s.ops[i], Next(s, e).ops[i], skew);
    }
  }

  lemma NewOpsTimed(s: State, e: Event, i: OpId, skew: Skew)
    requires |s.ops| <= i < |Next(s, e).ops|
    ensures OpTimed(Next(s, e).ops[i], skew)
  {
    match e
    case CreateOp(db, kind, restart, now) => NewOpTimed(db, kind, restart, now, skew);
    case DeleteDb(db, now) => NewOpTimed(db, Delete, false, now, skew);
    case _ =>
  }

  lemma HeldClaimStaysTimed(s: State, e: Event, who: ReconcilerId, skew: Skew)
    requires Inv(s) && Timed(s, skew) && who in s.claims && who in Next(s, e).claims
    ensures ClaimTimed(Next(s, e).ops, s.claims[who], skew)
  {
    var c := s.claims[who];
    assert ClaimOk(s.ops, c) && ClaimTimed(s.ops, c, skew);
    EventMoves(s, e, c.op);
    if RunsStepOf(s, e, c.op) {
      OtherClaim(s.ops, s.claims, e.who, who);
    }
  }

  lemma NewClaimTimed(s: State, e: Event, who: ReconcilerId, skew: Skew)
    requires ClockOk(s, e, skew) && who !in s.claims && who in Next(s, e).claims
    ensures ClaimTimed(Next(s, e).ops, Next(s, e).claims[who], skew)
  {
    assert e.ClaimStep? && e.who == who && Claimable(s, e.op, e.now);
  }

  lemma ClaimsStay(s: State, e: Event, who: ReconcilerId)
    requires who in s.claims && who in Next(s, e).claims
    ensures Next(s, e).claims[who] == s.claims[who]
  {
  }

  lemma ClaimStaysTimed(s: State, e: Event, who: ReconcilerId, skew: Skew)
    requires Inv(s) && Timed(s, skew) && ClockOk(s, e, skew) && who in Next(s, e).claims
    ensures ClaimTimed(Next(s, e).ops, Next(s, e).claims[who], skew)
  {
    if who in s.claims {
      HeldClaimStaysTimed(s, e, who, skew);
      ClaimsStay(s, e, who);
    } else {
      NewClaimTimed(s, e, who, skew);
    }
  }

  lemma StepStaysTimed(s: State, e: Event, skew: Skew)
    requires Inv(s) && Timed(s, skew) && ClockOk(s, e, skew)
    ensures Timed(Next(s, e), skew)
  {
    forall i | 0 <= i < |Next(s, e).ops|
      ensures OpTimed(Next(s, e).ops[i], skew)
    {
      if i < |s.ops| {
        OpStaysTimed(s, e, i, skew);
      } else {
        NewOpsTimed(s, e, i, skew);
      }
    }
    forall who <- Next(s, e).claims
      ensures ClaimTimed(Next(s, e).ops, Next(s, e).claims[who], skew)
    {
      ClaimStaysTimed(s, e, who, skew);
    }
  }

  lemma {:induction false} RunStaysTimed(es: seq<Event>, skew: Skew)
    requires Clocked(es, skew)
    ensures Timed(Run(Init(), es), skew)
  {
    if es != [] {
      var most := es[..|es| - 1];
      assert forall n | 0 <= n < |most| :: most[..n] == es[..n];
      RunStaysTimed(most, skew);
      RunKeepsInv(most);
      StepStaysTimed(Run(Init(), most), es[|es| - 1], skew);
    }
  }

  // ---- Attempts are commits ----

  lemma ExecutedAttempts(o: Op, o': Op)
    requires OpOk(o) && Active(o) && Executes(o, o')
    ensures Attempts(o'.steps) == Attempts(o.steps) + 1
  {
    OneMoreAttempt(o, o'.steps[FirstPending(o.steps)]);
  }

  lemma EventAttempts(s: State, e: Event, i: OpId)
    requires Inv(s) && i < |s.ops|
    ensures i < |Next(s, e).ops|
    ensures Attempts(Next(s, e).ops[i].steps) == Attempts(s.ops[i].steps) + if RunsStepOf(s, e, i) then 1 else 0
  {
    EventMoves(s, e, i);
    if RunsStepOf(s, e, i) {
      ExecutedAttempts(s.ops[i], Next(s, e).ops[i]);
    }
  }

  lemma NewOpsUntried(s: State, e: Event, i: OpId)
    requires |s.ops| <= i < |Next(s, e).ops|
    ensures Attempts(Next(s, e).ops[i].steps) == 0
  {
    NoAttempts(Next(s, e).ops[i].steps);
  }

  /** The attempts recorded on an operation are the claims of it that committed. */
  lemma {:induction false} AttemptsAreCommits(es: seq<Event>, i: OpId)
    ensures CommitsOf(es, i) == if i < |Run(Init(), es).ops| then Attempts(Run(Init(), es).ops[i].steps) else 0
  {
    if es != [] {
      var most := es[..|es| - 1];
      AttemptsAreCommits(most, i);
      RunKeepsInv(most);
      var s := Run(Init(), most);
      if i < |s.ops| {
        EventAttempts(s, es[|es| - 1], i);
      } else if i < |Run(Init(), es).ops| {
        NewOpsUntried(s, es[|es| - 1], i);
      }
    }
  }

  /** Within `T + n + 1` and the drift, which is within `T + 2n` for a drift of less than `n` seconds. */
  predicate WithinBound(attempts: nat, t: nat, n: nat, drift: real) {
    && attempts as real <= (t + n + 1) as real + drift
    && (drift < n as real ==> attempts <= t + 2 * n)
  }

  lemma OpBound(o: Op, skew: Skew)
    requires OpOk(o) && OpTimed(o, skew)
    ensures Attempts(o.steps) as real <= (TimeoutSeconds(o.kind) + |o.steps| + 1) as real + Drift(|o.steps|, skew)
    ensures Active(o) ==> Attempts(o.steps) as real <= (TimeoutSeconds(o.kind) + |o.steps|) as real + Drift(|o.steps|, skew)
  {
    if Active(o) {
      ActiveBound(o, skew);
      DriftGrows(FirstPending(o.steps) + 1, |o.steps|, skew);
    }
  }

  lemma WholeBound(attempts: nat, t: nat, n: nat, drift: real)
    requires attempts as real <= (t + n + 1) as real + drift
    ensures WithinBound(attempts, t, n, drift)
  {
    if drift < n as real {
      assert attempts as real < (t + 2 * n + 1) as real;
    }
  }

  /**
  An operation with `n` steps and `T` seconds takes no more than `T + n + 1` committed
  claims, and the skews of `n` steps. So it ends within `T + 2n` while those come to less
  than `n` seconds together.
  */
  lemma EndsWithinBound(es: seq<Event>, i: OpId, skew: Skew)
    requires Clocked(es, skew) && i < |Run(Init(), es).ops|
    ensures var o := Run(Init(), es).ops[i];
            var drift := Drift(|o.steps|, skew);
            && WithinBound(CommitsOf(es, i), TimeoutSeconds(o.kind), |o.steps|, drift)
            && (Active(o) ==> CommitsOf(es, i) as real <= (TimeoutSeconds(o.kind) + |o.steps|) as real + drift)
  {
    RunKeepsInv(es);
    RunStaysTimed(es, skew);
    AttemptsAreCommits(es, i);
    var o := Run(Init(), es).ops[i];
    OpBound(o, skew);
    WholeBound(CommitsOf(es, i), TimeoutSeconds(o.kind), |o.steps|, Drift(|o.steps|, skew));
  }
}
