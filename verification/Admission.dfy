/**
Caps on client connections: permits for all clients and for those still logging in, and
a count of the latter for each address. Admitting takes several steps, between which
other connections come and go.
*/
module Admission {

  type Address = string
  type ConnId = nat

  datatype Stage = Trying | Admitted | Refused

  /** What a connection holds: a permit of the total, a place in its address's count, and a login permit. */
  datatype Conn = Conn(address: Address, stage: Stage, total: bool, counted: bool, permit: bool)

  datatype Limits = Limits(total: nat, pending: nat, perAddress: nat)

  datatype State = State(
    limits: Limits,
    totalFree: nat, pendingFree: nat, counts: map<Address, nat>,
    conns: map<ConnId, Conn>)

  datatype Event =
    | Arrive(id: ConnId, address: Address)
    | Count(id: ConnId)
    | Permit(id: ConnId)
    | TakePermit(id: ConnId)       // logging in or leaving gives the login permit back
    | ReleaseCount(id: ConnId)     // and then the place in the count
    | ReleaseTotal(id: ConnId)

  function CountOf(counts: map<Address, nat>, a: Address): nat {
    if a in counts then counts[a] else 0
  }

  /** One fewer at an address, and no entry once there are none. */
  function Released(counts: map<Address, nat>, a: Address): map<Address, nat> {
    if a !in counts || counts[a] == 0 then counts
    else if counts[a] == 1 then counts - {a}
    else counts[a := counts[a] - 1]
  }

  function With(s: State, id: ConnId, c: Conn): State {
    s.(conns := s.conns[id := c])
  }

  function Next(s: State, e: Event): State {
    match e
    case Arrive(id, address) =>
      if id !in s.conns && s.totalFree > 0 then
        With(s, id, Conn(address, Trying, true, false, false)).(totalFree := s.totalFree - 1)
      else s
    case Count(id) =>
      if id in s.conns && s.conns[id].stage == Trying && !s.conns[id].counted then
        var c := s.conns[id];
        var count := CountOf(s.counts, c.address);
        if count >= s.limits.perAddress then
          With(s, id, c.(stage := Refused)).(counts := s.counts[c.address := count])
        else
          With(s, id, c.(counted := true)).(counts := s.counts[c.address := count + 1])
      else s
    case Permit(id) =>
      if id in s.conns && s.conns[id].stage == Trying && s.conns[id].counted then
        if s.pendingFree > 0 then
          With(s, id, s.conns[id].(stage := Admitted, permit := true)).(pendingFree := s.pendingFree - 1)
        else With(s, id, s.conns[id].(stage := Refused))
      else s
    case TakePermit(id) =>
      if id in s.conns && s.conns[id].permit then
        With(s, id, s.conns[id].(permit := false)).(pendingFree := s.pendingFree + 1)
      else s
    case ReleaseCount(id) =>
      if id in s.conns && s.conns[id].stage != Trying && s.conns[id].counted && !s.conns[id].permit then
        With(s, id, s.conns[id].(counted := false)).(counts := Released(s.counts, s.conns[id].address))
      else s
    case ReleaseTotal(id) =>
      if id in s.conns && s.conns[id].stage != Trying && s.conns[id].total then
        With(s, id, s.conns[id].(total := false)).(totalFree := s.totalFree + 1)
      else s
  }

  function Run(s: State, es: seq<Event>): State {
    if es == [] then s else Next(Run(s, es[..|es| - 1]), es[|es| - 1])
  }

  predicate Init(s: State) {
    s == State(s.limits, s.limits.total, s.limits.pending, map[], map[])
  }

  // ---- Who holds what ----

  function TotalHolders(conns: map<ConnId, Conn>): set<ConnId> {
    set id <- conns | conns[id].total
  }

  function PermitHolders(conns: map<ConnId, Conn>): set<ConnId> {
    set id <- conns | conns[id].permit
  }

  function CountedAt(conns: map<ConnId, Conn>, a: Address): set<ConnId> {
    set id <- conns | conns[id].counted && conns[id].address == a
  }

  predicate ConnOk(c: Conn) {
    && (c.permit ==> c.stage == Admitted && c.counted)
    && (c.stage == Trying ==> c.total)
  }

  ghost predicate CountsOk(counts: map<Address, nat>, conns: map<ConnId, Conn>, perAddress: nat) {
    && (forall a: Address :: CountOf(counts, a) == |CountedAt(conns, a)|)
    && (forall a <- counts :: counts[a] <= perAddress)
    && (forall a <- counts :: counts[a] == 0 ==> perAddress == 0)
  }

  ghost predicate Inv(s: State) {
    && s.totalFree + |TotalHolders(s.conns)| == s.limits.total
    && s.pendingFree + |PermitHolders(s.conns)| == s.limits.pending
    && CountsOk(s.counts, s.conns, s.limits.perAddress)
    && (forall id <- s.conns :: ConnOk(s.conns[id]))
  }

  // ---- What one change does to each set ----

  lemma TotalAfter(conns: map<ConnId, Conn>, id: ConnId, c: Conn)
    ensures |TotalHolders(conns[id := c])| + (if id in conns && conns[id].total then 1 else 0)
         == |TotalHolders(conns)| + if c.total then 1 else 0
  {
    var others := TotalHolders(conns) - {id};
    assert TotalHolders(conns) == if id in conns && conns[id].total then others + {id} else others;
    assert TotalHolders(conns[id := c]) == if c.total then others + {id} else others;
  }

  lemma PermitAfter(conns: map<ConnId, Conn>, id: ConnId, c: Conn)
    ensures |PermitHolders(conns[id := c])| + (if id in conns && conns[id].permit then 1 else 0)
         == |PermitHolders(conns)| + if c.permit then 1 else 0
  {
    var others := PermitHolders(conns) - {id};
    assert PermitHolders(conns) == if id in conns && conns[id].permit then others + {id} else others;
    assert PermitHolders(conns[id := c]) == if c.permit then others + {id} else others;
  }

  predicate CountsFor(conns: map<ConnId, Conn>, id: ConnId, a: Address) {
    id in conns && conns[id].counted && conns[id].address == a
  }

  lemma CountedAfter(conns: map<ConnId, Conn>, id: ConnId, c: Conn, a: Address)
    ensures |CountedAt(conns[id := c], a)| + (if CountsFor(conns, id, a) then 1 else 0)
         == |CountedAt(conns, a)| + if c.counted && c.address == a then 1 else 0
  {
    var others := CountedAt(conns, a) - {id};
    assert CountedAt(conns, a) == if CountsFor(conns, id, a) then others + {id} else others;
    assert CountedAt(conns[id := c], a) == if c.counted && c.address == a then others + {id} else others;
  }

  /** The counts stay right if an address's count moves with its connections. */
  lemma CountsAfter(s: State, id: ConnId, c: Conn, counts: map<Address, nat>)
    requires CountsOk(s.counts, s.conns, s.limits.perAddress)
    requires forall a: Address :: CountOf(counts, a) + (if CountsFor(s.conns, id, a) then 1 else 0)
                               == CountOf(s.counts, a) + if c.counted && c.address == a then 1 else 0
    requires forall a <- counts :: counts[a] <= s.limits.perAddress && (counts[a] == 0 ==> s.limits.perAddress == 0)
    ensures CountsOk(counts, s.conns[id := c], s.limits.perAddress)
  {
    forall a: Address
      ensures CountOf(counts, a) == |CountedAt(s.conns[id := c], a)|
    {
      CountedAfter(s.conns, id, c, a);
      assert CountOf(s.counts, a) == |CountedAt(s.conns, a)|;
    }
  }

  lemma StepKeepsCounts(s: State, e: Event)
    requires Inv(s)
    ensures CountsOk(Next(s, e).counts, Next(s, e).conns, s.limits.perAddress)
  {
    var s' := Next(s, e);
    if s' != s {
      if e.id in s.conns && s.conns[e.id].counted {
        var a := s.conns[e.id].address;
        assert e.id in CountedAt(s.conns, a);
        assert CountOf(s.counts, a) == |CountedAt(s.conns, a)| > 0;
      }
      CountsAfter(s, e.id, s'.conns[e.id], s'.counts);
    }
  }

  lemma StepKeepsInv(s: State, e: Event)
    requires Inv(s)
    ensures Inv(Next(s, e)) && Next(s, e).limits == s.limits
  {
    var s' := Next(s, e);
    if s' != s {
      TotalAfter(s.conns, e.id, s'.conns[e.id]);
      PermitAfter(s.conns, e.id, s'.conns[e.id]);
      StepKeepsCounts(s, e);
    }
  }

  lemma {:induction false} RunKeepsInv(s: State, es: seq<Event>)
    requires Inv(s)
    ensures Inv(Run(s, es)) && Run(s, es).limits == s.limits
  {
    if es != [] {
      RunKeepsInv(s, es[..|es| - 1]);
      StepKeepsInv(Run(s, es[..|es| - 1]), es[|es| - 1]);
    }
  }

  // ---- The theorems ----

  /** At every moment of every run, what is held and what is free make up each cap, and no address is over its own. */
  lemma CapsHold(s: State, es: seq<Event>, a: Address)
    requires Init(s)
    ensures var s' := Run(s, es);
            && s'.totalFree + |TotalHolders(s'.conns)| == s.limits.total
            && s'.pendingFree + |PermitHolders(s'.conns)| == s.limits.pending
            && CountOf(s'.counts, a) == |CountedAt(s'.conns, a)| <= s.limits.perAddress
            && (a in s'.counts && s'.counts[a] == 0 ==> s.limits.perAddress == 0)
  {
    assert TotalHolders(s.conns) == {} && PermitHolders(s.conns) == {};
    assert forall b: Address :: CountedAt(s.conns, b) == {};
    RunKeepsInv(s, es);
    assert CountOf(Run(s, es).counts, a) == |CountedAt(Run(s, es).conns, a)|;
  }

  /** In any run, a connection with a place in a count finds it above zero when it gives the place back. */
  lemma CountNeverUnderflows(s: State, es: seq<Event>, id: ConnId, a: Address)
    requires Init(s) && id in Run(s, es).conns && CountsFor(Run(s, es).conns, id, a)
    ensures a in Run(s, es).counts && Run(s, es).counts[a] > 0
  {
    CapsHold(s, es, a);
    assert id in CountedAt(Run(s, es).conns, a);
  }

  /** The guards an address has out: admitted connections that have not logged in or gone. */
  function GuardsAt(conns: map<ConnId, Conn>, a: Address): set<ConnId> {
    set id <- conns | conns[id].permit && conns[id].address == a
  }

  /** No connection is part way through a step. */
  predicate AtRest(s: State) {
    forall id <- s.conns :: s.conns[id].stage != Trying && (s.conns[id].counted ==> s.conns[id].permit)
  }

  ghost function SomeKey(m: map<Address, nat>): (a: Address)
    requires |m| > 0
    ensures a in m
  {
    var a :| a in m.Keys;
    a
  }

  ghost function Sum(m: map<Address, nat>): nat
    decreases |m|
  {
    if |m| == 0 then 0 else m[SomeKey(m)] + Sum(m - {SomeKey(m)})
  }

  function CountedIn(conns: map<ConnId, Conn>, addresses: set<Address>): set<ConnId> {
    set id <- conns | conns[id].counted && conns[id].address in addresses
  }

  /** The counts of some addresses add up to the connections counted at them. */
  lemma {:induction false} SumCounts(m: map<Address, nat>, conns: map<ConnId, Conn>)
    requires forall a <- m :: m[a] == |CountedAt(conns, a)|
    ensures Sum(m) == |CountedIn(conns, m.Keys)|
    decreases |m|
  {
    if |m| == 0 {
      assert m.Keys == {};
      assert CountedIn(conns, m.Keys) == {};
    } else {
      var a := SomeKey(m);
      SumCounts(m - {a}, conns);
      assert CountedIn(conns, m.Keys) == CountedIn(conns, (m - {a}).Keys) + CountedAt(conns, a);
      assert CountedIn(conns, (m - {a}).Keys) !! CountedAt(conns, a);
    }
  }

  /**
  With no connection part way through a step, each address's count is the guards it has
  out, and the counts add up to the login permits out. Refused connections hold neither.
  */
  lemma CountsAreGuards(s: State, es: seq<Event>)
    requires Init(s) && AtRest(Run(s, es))
    ensures var s' := Run(s, es);
            && (forall a: Address :: CountOf(s'.counts, a) == |GuardsAt(s'.conns, a)|)
            && Sum(s'.counts) == |PermitHolders(s'.conns)| == s.limits.pending - s'.pendingFree
            && (forall id <- s'.conns | s'.conns[id].stage == Refused :: !s'.conns[id].counted && !s'.conns[id].permit)
  {
    assert TotalHolders(s.conns) == {} && PermitHolders(s.conns) == {};
    assert forall b: Address :: CountedAt(s.conns, b) == {};
    RunKeepsInv(s, es);
    var s' := Run(s, es);
    GuardsAreCounted(s');
    SumCounts(s'.counts, s'.conns);
  }

  lemma GuardsAreCounted(s: State)
    requires Inv(s) && AtRest(s)
    ensures forall a: Address :: CountOf(s.counts, a) == |GuardsAt(s.conns, a)|
    ensures CountedIn(s.conns, s.counts.Keys) == PermitHolders(s.conns)
  {
    forall a: Address
      ensures GuardsAt(s.conns, a) == CountedAt(s.conns, a)
      ensures CountOf(s.counts, a) == |CountedAt(s.conns, a)|
    {
    }
    forall id <- PermitHolders(s.conns)
      ensures id in CountedIn(s.conns, s.counts.Keys)
    {
      var a := s.conns[id].address;
      assert id in CountedAt(s.conns, a);
      assert CountOf(s.counts, a) == |CountedAt(s.conns, a)| > 0;
    }
  }

  // ---- The methods ----

  lemma RunExtend(s: State, es: seq<Event>, e: Event)
    ensures Run(s, es + [e]) == Next(Run(s, es), e)
  {
    assert (es + [e])[..|es|] == es;
  }

  /** The steps of a connection that tries to get in, and gives back what it took if it is refused. */
  function TrySteps(id: ConnId, a: Address, admitted: bool): seq<Event> {
    [Arrive(id, a)] + [Count(id)] + [Permit(id)] + if admitted then [] else [ReleaseCount(id)] + [ReleaseTotal(id)]
  }

  lemma TryRuns(s: State, id: ConnId, a: Address, admitted: bool)
    ensures Run(s, TrySteps(id, a, admitted))
         == var s3 := Next(Next(Next(s, Arrive(id, a)), Count(id)), Permit(id));
            if admitted then s3 else Next(Next(s3, ReleaseCount(id)), ReleaseTotal(id))
  {
    assert [] + [Arrive(id, a)] == [Arrive(id, a)];
    RunExtend(s, [], Arrive(id, a));
    RunExtend(s, [Arrive(id, a)], Count(id));
    var three := [Arrive(id, a)] + [Count(id)] + [Permit(id)];
    RunExtend(s, [Arrive(id, a)] + [Count(id)], Permit(id));
    RunExtend(s, three, ReleaseCount(id));
    RunExtend(s, three + [ReleaseCount(id)], ReleaseTotal(id));
    assert three + [] == three;
    assert three + ([ReleaseCount(id)] + [ReleaseTotal(id)]) == three + [ReleaseCount(id)] + [ReleaseTotal(id)];
  }

  predicate Admits(s: State, a: Address) {
    s.totalFree > 0 && s.pendingFree > 0 && CountOf(s.counts, a) < s.limits.perAddress
  }

  /** What trying comes to: everything taken, or nothing. */
  function Tried(s: State, id: ConnId, a: Address): State {
    var count := CountOf(s.counts, a);
    var refused := Conn(a, Refused, false, false, false);
    if s.totalFree == 0 then s
    else if count >= s.limits.perAddress then s.(counts := s.counts[a := count], conns := s.conns[id := refused])
    else if s.pendingFree == 0 then s.(counts := Released(s.counts[a := count + 1], a), conns := s.conns[id := refused])
    else s.(totalFree := s.totalFree - 1, pendingFree := s.pendingFree - 1, counts := s.counts[a := count + 1],
            conns := s.conns[id := Conn(a, Admitted, true, true, true)])
  }

  lemma CountStep(s: State, id: ConnId, a: Address)
    requires id !in s.conns && s.totalFree > 0
    ensures var count := CountOf(s.counts, a);
            Next(Next(s, Arrive(id, a)), Count(id))
            == if count >= s.limits.perAddress
               then s.(totalFree := s.totalFree - 1, counts := s.counts[a := count],
                       conns := s.conns[id := Conn(a, Refused, true, false, false)])
               else s.(totalFree := s.totalFree - 1, counts := s.counts[a := count + 1],
                       conns := s.conns[id := Conn(a, Trying, true, true, false)])
  {
    var s1 := Next(s, Arrive(id, a));
    var c := Conn(a, Trying, true, false, false);
    assert s1.conns == s.conns[id := c];
    assert s1.conns[id := c.(stage := Refused)] == s.conns[id := c.(stage := Refused)];
    assert s1.conns[id := c.(counted := true)] == s.conns[id := c.(counted := true)];
  }

  lemma RefusedSteps(s: State, id: ConnId, c: Conn)
    requires c.stage == Refused && c.total && !c.permit && id in s.conns && s.conns[id] == c
    ensures Next(Next(s, ReleaseCount(id)), ReleaseTotal(id))
         == s.(totalFree := s.totalFree + 1, counts := if c.counted then Released(s.counts, c.address) else s.counts,
               conns := s.conns[id := Conn(c.address, Refused, false, false, false)])
  {
    var s1 := Next(s, ReleaseCount(id));
    assert s1.conns[id] == c.(counted := false);
    assert s1.conns[id := Conn(c.address, Refused, false, false, false)] == s.conns[id := Conn(c.address, Refused, false, false, false)];
  }

  lemma PermitStep(s: State, id: ConnId, a: Address)
    requires id in s.conns && s.conns[id] == Conn(a, Trying, true, true, false)
    ensures Next(s, Permit(id))
         == if s.pendingFree > 0
            then s.(pendingFree := s.pendingFree - 1, conns := s.conns[id := Conn(a, Admitted, true, true, true)])
            else s.(conns := s.conns[id := Conn(a, Refused, true, true, false)])
  {
  }

  lemma LastUpdate(conns: map<ConnId, Conn>, id: ConnId, c: Conn, c': Conn)
    ensures conns[id := c][id := c'] == conns[id := c']
  {
  }

  /** The three steps, before anything is given back. */
  lemma TakingSteps(s: State, id: ConnId, a: Address)
    requires id !in s.conns && s.totalFree > 0
    ensures var count := CountOf(s.counts, a);
            Next(Next(Next(s, Arrive(id, a)), Count(id)), Permit(id))
            == if count >= s.limits.perAddress
               then s.(totalFree := s.totalFree - 1, counts := s.counts[a := count],
                       conns := s.conns[id := Conn(a, Refused, true, false, false)])
               else if s.pendingFree == 0
               then s.(totalFree := s.totalFree - 1, counts := s.counts[a := count + 1],
                       conns := s.conns[id := Conn(a, Refused, true, true, false)])
               else Tried(s, id, a)
  {
    CountStep(s, id, a);
    var s2 := Next(Next(s, Arrive(id, a)), Count(id));
    if CountOf(s.counts, a) < s.limits.perAddress {
      PermitStep(s2, id, a);
      LastUpdate(s.conns, id, s2.conns[id], Conn(a, Admitted, true, true, true));
      LastUpdate(s.conns, id, s2.conns[id], Conn(a, Refused, true, true, false));
    }
  }

  /** The steps of a try, taken one after another, come to that. */
  lemma StepsMakeTried(s: State, id: ConnId, a: Address)
    requires id !in s.conns
    ensures Run(s, TrySteps(id, a, Admits(s, a))) == Tried(s, id, a)
  {
    TryRuns(s, id, a, Admits(s, a));
    if s.totalFree > 0 {
      TakingSteps(s, id, a);
      if !Admits(s, a) {
        var s3 := Next(Next(Next(s, Arrive(id, a)), Count(id)), Permit(id));
        RefusedSteps(s3, id, s3.conns[id]);
        LastUpdate(s.conns, id, s3.conns[id], Conn(a, Refused, false, false, false));
      }
    }
  }

  /** Giving a place back undoes having taken it, where there was an entry of zero only if no login is allowed. */
  lemma TakenAndReleased(counts: map<Address, nat>, a: Address)
    requires a in counts ==> counts[a] > 0
    ensures Released(counts[a := CountOf(counts, a) + 1], a) == counts
  {
    if a in counts {
      assert counts[a := counts[a] + 1][a := counts[a]] == counts;
    } else {
      assert counts[a := 1] - {a} == counts;
    }
  }

  /**
  After any run, a try that is refused takes nothing, and changes the counts exactly when
  there was a permit to be had, no login is allowed from any address, and the address has no
  entry yet: then it leaves one of zero.
  */
  lemma RefusalHoldsNothing(s: State, es: seq<Event>, id: ConnId, a: Address)
    requires Init(s) && !Admits(Run(s, es), a)
    ensures var s' := Run(s, es);
            var t := Tried(s', id, a);
            && t.totalFree == s'.totalFree && t.pendingFree == s'.pendingFree
            && (t.counts != s'.counts <==> s'.totalFree > 0 && s.limits.perAddress == 0 && a !in s'.counts)
            && (t.counts != s'.counts ==> t.counts == s'.counts[a := 0])
  {
    var s' := Run(s, es);
    CapsHold(s, es, a);
    LimitsStay(s, es);
    var count := CountOf(s'.counts, a);
    if count < s.limits.perAddress {
      TakenAndReleased(s'.counts, a);
    } else if a in s'.counts {
      assert s'.counts[a := count] == s'.counts;
    } else {
      assert a in s'.counts[a := count];
    }
  }

  lemma {:induction false} LimitsStay(s: State, es: seq<Event>)
    ensures Run(s, es).limits == s.limits
  {
    if es != [] {
      LimitsStay(s, es[..|es| - 1]);
    }
  }

  /** A connection is admitted exactly when there is a place for it under each of the three caps. */
  lemma AdmittedExactlyWhen(s: State, id: ConnId, a: Address)
    requires id !in s.conns
    ensures var t := Run(s, TrySteps(id, a, Admits(s, a)));
            (id in t.conns && t.conns[id].stage == Admitted)
            <==> s.totalFree > 0 && s.pendingFree > 0 && (if a in s.counts then s.counts[a] else 0) < s.limits.perAddress
  {
    StepsMakeTried(s, id, a);
  }

  /** One that was admitted and leaves gives everything back, whether or not it logged in first. */
  lemma LeavingGivesAllBack(s: State, id: ConnId, a: Address)
    requires id !in s.conns && Admits(s, a)
    ensures var t := Next(Next(Next(Tried(s, id, a), TakePermit(id)), ReleaseCount(id)), ReleaseTotal(id));
            && t.totalFree == s.totalFree && t.pendingFree == s.pendingFree
            && forall other: Address :: CountOf(t.counts, other) == CountOf(s.counts, other)
  {
  }

  /** Only a connection still being tried is counted or given a permit, and it gives nothing back meanwhile. */
  lemma TryingComesFirst(s: State, id: ConnId)
    requires id in s.conns
    ensures if s.conns[id].stage == Trying then Next(s, ReleaseCount(id)) == s && Next(s, ReleaseTotal(id)) == s
            else Next(s, Count(id)) == s && Next(s, Permit(id)) == s
  {
  }

  /** From any start with no login allowed, one connection is enough to leave an entry of zero. */
  lemma RefusalCanLeaveAnEntry(s: State, a: Address)
    requires Init(s) && s.limits.total > 0 && s.limits.perAddress == 0
    ensures var s' := Run(s, TrySteps(0, a, false));
            a in s'.counts && s'.counts[a] == 0 && s'.totalFree == s.totalFree && s'.pendingFree == s.pendingFree
  {
    StepsMakeTried(s, 0, a);
  }

  class ConnectionLimits {
    const limits: Limits
    var totalFree: nat
    var pendingFree: nat
    var counts: map<Address, nat>
    ghost var conns: map<ConnId, Conn>

    ghost function Now(): State
      reads this
    {
      State(limits, totalFree, pendingFree, counts, conns)
    }

    constructor (total: nat, pending: nat, perAddress: nat)
      ensures Init(Now()) && limits == Limits(total, pending, perAddress)
    {
      limits := Limits(total, pending, perAddress);
      totalFree, pendingFree, counts, conns := total, pending, map[], map[];
    }

    method Release(a: Address)
      modifies this`counts
      ensures counts == Released(old(counts), a)
    {
      if a in counts && counts[a] > 0 {
        counts := counts[a := counts[a] - 1];
        if counts[a] == 0 {
          counts := counts - {a};
        }
      }
    }

    /** Take a permit, a place in the count and a login permit, giving back what was taken if one is not to be had. */
    method Admit(a: Address, ghost id: ConnId) returns (admitted: bool)
      modifies this
      ensures admitted <==> Admits(old(Now()), a)
      ensures Now() == Tried(old(Now()), id, a)
    {
      if totalFree == 0 {
        return false;
      }
      totalFree := totalFree - 1;
      var count := CountOf(counts, a);
      if count >= limits.perAddress {
        counts := counts[a := count];
        totalFree := totalFree + 1;
        conns := conns[id := Conn(a, Refused, false, false, false)];
        return false;
      }
      counts := counts[a := count + 1];
      if pendingFree == 0 {
        Release(a);
        totalFree := totalFree + 1;
        conns := conns[id := Conn(a, Refused, false, false, false)];
        return false;
      }
      pendingFree := pendingFree - 1;
      conns := conns[id := Conn(a, Admitted, true, true, true)];
      return true;
    }

    /** The client has logged in or gone: its login permit and its place in the count go back, once. */
    method Finish(a: Address, held: bool, ghost id: ConnId) returns (done: bool)
      requires id in conns && conns[id] == Conn(a, Admitted, conns[id].total, held, held)
      modifies this`pendingFree, this`counts, this`conns
      ensures done == held
      ensures Now() == Next(Next(old(Now()), TakePermit(id)), ReleaseCount(id))
    {
      done := held;
      if held {
        pendingFree := pendingFree + 1;
        Release(a);
        conns := conns[id := conns[id].(permit := false, counted := false)];
      }
    }
  }
}
