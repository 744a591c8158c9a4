/**
The scheduler: what a host has to give, and the choice of hosts for a database's
nodes, one for each failure domain and those with the most free memory first.
Sizes are reals.
*/
module Scheduler {
  import opened Common

  datatype Resources = Resources(vcpu: real, memory: real, storage: real)

  datatype Config = Config(
    osReservedMemory: real, pageCacheShare: real, storageReserveShare: real,
    portBaseStart: int, portBaseEnd: int)

  datatype Host = Host(
    id: string, failureDomain: Option<string>, capacity: Option<Resources>,
    used: Resources, instances: int)

  /** Room for rounding, so that a request for exactly what is free fits. */
  const EPSILON: real := 0.000000001

  /** The ports an instance takes, from its base. */
  const PORT_BLOCK: int := 10

  /** The least finite double, the free memory of a host that has not said how large it is. */
  const F64_MIN: real := -179769313486231570814527423731704356798070567525844996598917476803157260780028538760589558632766878171540458953514382464234321326889464182768467546703537516986049910576551282076245490090389328944075868508455133942304583236903222948165808559332123348274797826204144723168738177180919299881250404026184124858368.0

  /** What the service checks of its configuration before it starts. */
  predicate ValidConfig(c: Config) {
    && 0.0 <= c.pageCacheShare < 1.0 && 0.0 <= c.storageReserveShare < 1.0
    && 0.0 <= c.osReservedMemory
    && 1024 <= c.portBaseStart <= c.portBaseEnd <= 65535 - PORT_BLOCK
  }

  /** Division that rounds toward zero. */
  function Truncated(a: int, b: int): int
    requires b > 0
  {
    if a < 0 then -((-a) / b) else a / b
  }

  function PortBlocks(c: Config): int {
    Truncated(c.portBaseEnd - c.portBaseStart, PORT_BLOCK) + 1
  }

  function Allocatable(c: Config, capacity: Resources): Resources {
    var memory := if capacity.memory - c.osReservedMemory < 0.0 then 0.0 else capacity.memory - c.osReservedMemory;
    Resources(capacity.vcpu, memory * (1.0 - c.pageCacheShare), capacity.storage * (1.0 - c.storageReserveShare))
  }

  predicate Fits(free: Resources, request: Resources) {
    && request.vcpu <= free.vcpu + EPSILON
    && request.memory <= free.memory + EPSILON
    && request.storage <= free.storage + EPSILON
  }

  function Minus(a: Resources, b: Resources): Resources {
    Resources(a.vcpu - b.vcpu, a.memory - b.memory, a.storage - b.storage)
  }

  function Free(c: Config, h: Host): Option<Resources> {
    if h.capacity.None? then None else Some(Minus(Allocatable(c, h.capacity.value), h.used))
  }

  function Domain(h: Host): string {
    if h.failureDomain.Some? then h.failureDomain.value else h.id
  }

  predicate HasRoom(c: Config, h: Host, request: Resources) {
    h.instances < PortBlocks(c) && Free(c, h).Some? && Fits(Free(c, h).value, request)
  }

  function FreeMemory(c: Config, h: Host): real {
    if Free(c, h).Some? then Free(c, h).value.memory else F64_MIN
  }

  /** What is handed out and what is kept back make up the host: memory for the OS, then a share of the rest, and a share of the disk. */
  lemma ReservesAreKept(c: Config, capacity: Resources)
    requires ValidConfig(c)
    ensures var a := Allocatable(c, capacity);
            var rest := capacity.memory - c.osReservedMemory;
            && a.vcpu == capacity.vcpu
            && a.storage + c.storageReserveShare * capacity.storage == capacity.storage
            && (rest >= 0.0 ==> a.memory + c.osReservedMemory + c.pageCacheShare * rest == capacity.memory)
            && (rest < 0.0 ==> a.memory == 0.0)
  {
    ShareOf(capacity.storage, c.storageReserveShare);
    ShareOf(capacity.memory - c.osReservedMemory, c.pageCacheShare);
  }

  lemma ShareOf(x: real, share: real)
    ensures x * (1.0 - share) + share * x == x
  {
  }

  /**
  A host has room exactly when it said how large it is, what its nodes use and what is asked
  for come to no more than it hands out, but for rounding, and one more block of ten ports
  begins by the end of the range.
  */
  lemma RoomExactlyWhen(c: Config, h: Host, request: Resources)
    requires ValidConfig(c) && h.instances >= 0
    ensures HasRoom(c, h, request) <==>
              && h.capacity.Some?
              && var a := Allocatable(c, h.capacity.value);
              && h.used.vcpu + request.vcpu <= a.vcpu + 0.000000001
              && h.used.memory + request.memory <= a.memory + 0.000000001
              && h.used.storage + request.storage <= a.storage + 0.000000001
              && c.portBaseStart + 10 * h.instances <= c.portBaseEnd
  {
  }

  // ---- The order of the hosts ----

  /** Of two hosts that said how large they are, the first has no less memory to hand out than the second. */
  predicate MostFirst(c: Config, hosts: seq<Host>) {
    forall i, j | 0 <= i < j < |hosts| && hosts[i].capacity.Some? && hosts[j].capacity.Some? ::
      Allocatable(c, hosts[j].capacity.value).memory - hosts[j].used.memory
      <= Allocatable(c, hosts[i].capacity.value).memory - hosts[i].used.memory
  }

  predicate Descending(c: Config, hosts: seq<Host>) {
    forall i, j | 0 <= i < j < |hosts| :: FreeMemory(c, hosts[j]) <= FreeMemory(c, hosts[i])
  }

  /** Insert ahead of the first host with no more free memory, so an earlier one stays ahead of its equals. */
  function Inserted(c: Config, h: Host, hosts: seq<Host>): seq<Host> {
    if hosts == [] then [h]
    else if FreeMemory(c, hosts[0]) <= FreeMemory(c, h) then [h] + hosts
    else [hosts[0]] + Inserted(c, h, hosts[1..])
  }

  /** The hosts with the most free memory first, and in the order given where that is equal. */
  function ByFree(c: Config, hosts: seq<Host>): seq<Host> {
    if hosts == [] then [] else Inserted(c, hosts[0], ByFree(c, hosts[1..]))
  }

  function Roomy(c: Config, hosts: seq<Host>, request: Resources): seq<Host> {
    if hosts == [] then []
    else if HasRoom(c, hosts[0], request) then [hosts[0]] + Roomy(c, hosts[1..], request)
    else Roomy(c, hosts[1..], request)
  }

  lemma {:induction false} InsertedHolds(c: Config, h: Host, hosts: seq<Host>)
    ensures multiset(Inserted(c, h, hosts)) == multiset{h} + multiset(hosts)
  {
    if hosts != [] {
      assert hosts == [hosts[0]] + hosts[1..];
      InsertedHolds(c, h, hosts[1..]);
    }
  }

  lemma Prepended(c: Config, h: Host, hosts: seq<Host>)
    requires Descending(c, hosts) && forall x <- hosts :: FreeMemory(c, x) <= FreeMemory(c, h)
    ensures Descending(c, [h] + hosts)
  {
    assert forall i | 0 <= i < |hosts| :: hosts[i] in hosts;
  }

  lemma {:induction false} InsertedDescends(c: Config, h: Host, hosts: seq<Host>)
    requires Descending(c, hosts)
    ensures Descending(c, Inserted(c, h, hosts))
  {
    if hosts != [] {
      if FreeMemory(c, hosts[0]) <= FreeMemory(c, h) {
        Prepended(c, h, hosts);
      } else {
        InsertedDescends(c, h, hosts[1..]);
        InsertedHolds(c, h, hosts[1..]);
        var rest := Inserted(c, h, hosts[1..]);
        forall x <- rest
          ensures FreeMemory(c, x) <= FreeMemory(c, hosts[0])
        {
          assert x in multiset(rest);
        }
        Prepended(c, hosts[0], rest);
      }
    }
  }

  /** Sorting moves hosts about and leaves the most free memory first. */
  lemma {:induction false} ByFreeSorts(c: Config, hosts: seq<Host>)
    ensures multiset(ByFree(c, hosts)) == multiset(hosts)
    ensures Descending(c, ByFree(c, hosts)) && MostFirst(c, ByFree(c, hosts))
  {
    if hosts != [] {
      assert hosts == [hosts[0]] + hosts[1..];
      ByFreeSorts(c, hosts[1..]);
      InsertedHolds(c, hosts[0], ByFree(c, hosts[1..]));
      InsertedDescends(c, hosts[0], ByFree(c, hosts[1..]));
    }
  }

  /** The hosts with a given amount of free memory, in order. */
  function WithMemory(c: Config, hosts: seq<Host>, memory: real): seq<Host> {
    if hosts == [] then []
    else (if FreeMemory(c, hosts[0]) == memory then [hosts[0]] else []) + WithMemory(c, hosts[1..], memory)
  }

  lemma {:induction false} InsertedIsStable(c: Config, h: Host, hosts: seq<Host>, memory: real)
    ensures WithMemory(c, Inserted(c, h, hosts), memory) == WithMemory(c, [h] + hosts, memory)
  {
    assert ([h] + hosts)[1..] == hosts;
    if hosts != [] && FreeMemory(c, h) < FreeMemory(c, hosts[0]) {
      InsertedIsStable(c, h, hosts[1..], memory);
      var rest := Inserted(c, h, hosts[1..]);
      assert ([hosts[0]] + rest)[1..] == rest;
      assert ([h] + hosts[1..])[1..] == hosts[1..];
    }
  }

  /** Hosts with the same free memory stay in the order they were given in. */
  lemma {:induction false} ByFreeIsStable(c: Config, hosts: seq<Host>, memory: real)
    ensures WithMemory(c, ByFree(c, hosts), memory) == WithMemory(c, hosts, memory)
  {
    if hosts != [] {
      ByFreeIsStable(c, hosts[1..], memory);
      var rest := ByFree(c, hosts[1..]);
      InsertedIsStable(c, hosts[0], rest, memory);
      assert ([hosts[0]] + rest)[1..] == rest;
    }
  }

  lemma SameHosts(a: seq<Host>, b: seq<Host>)
    requires multiset(a) == multiset(b)
    ensures forall h :: h in a <==> h in b
    ensures |a| == |b|
  {
    assert forall h :: h in a <==> h in multiset(a);
    assert |a| == |multiset(a)|;
  }

  lemma {:induction false} RoomyHolds(c: Config, hosts: seq<Host>, request: Resources)
    ensures forall h :: h in Roomy(c, hosts, request) <==> h in hosts && HasRoom(c, h, request)
    ensures Descending(c, hosts) ==> Descending(c, Roomy(c, hosts, request))
  {
    if hosts != [] {
      RoomyHolds(c, hosts[1..], request);
      var rest := Roomy(c, hosts[1..], request);
      if Descending(c, hosts) && HasRoom(c, hosts[0], request) {
        Prepended(c, hosts[0], rest);
      }
    }
  }

  // ---- One host for each domain ----

  function Domains(hosts: seq<Host>): set<string> {
    set h <- hosts :: Domain(h)
  }

  predicate DistinctDomains(hosts: seq<Host>) {
    forall i, j | 0 <= i < j < |hosts| :: Domain(hosts[i]) != Domain(hosts[j])
  }

  /** The first host of each domain that is not used yet. */
  function Firsts(hosts: seq<Host>, used: set<string>): seq<Host> {
    if hosts == [] then []
    else if Domain(hosts[0]) in used then Firsts(hosts[1..], used)
    else [hosts[0]] + Firsts(hosts[1..], used + {Domain(hosts[0])})
  }

  function Choose(hosts: seq<Host>, count: nat): Option<seq<Host>> {
    if |Firsts(hosts, {})| < count then None else Some(Firsts(hosts, {})[..count])
  }

  lemma DomainsOf(h: Host, hosts: seq<Host>)
    ensures Domains([h] + hosts) == {Domain(h)} + Domains(hosts)
  {
    assert forall x <- hosts :: x in [h] + hosts;
    assert h in [h] + hosts;
  }

  lemma {:induction false} FirstsAreOnePerDomain(hosts: seq<Host>, used: set<string>)
    ensures DistinctDomains(Firsts(hosts, used))
    ensures Domains(Firsts(hosts, used)) == Domains(hosts) - used
    ensures forall h <- Firsts(hosts, used) :: h in hosts
  {
    if hosts != [] {
      var d := Domain(hosts[0]);
      assert hosts == [hosts[0]] + hosts[1..];
      DomainsOf(hosts[0], hosts[1..]);
      if d in used {
        FirstsAreOnePerDomain(hosts[1..], used);
      } else {
        var rest := Firsts(hosts[1..], used + {d});
        FirstsAreOnePerDomain(hosts[1..], used + {d});
        DomainsOf(hosts[0], rest);
        forall i | 0 <= i < |rest|
          ensures Domain(rest[i]) != d
        {
          assert Domain(rest[i]) in Domains(rest);
        }
      }
    }
  }

  lemma {:induction false} DistinctDomainsCount(hosts: seq<Host>)
    requires DistinctDomains(hosts)
    ensures |Domains(hosts)| == |hosts|
  {
    if hosts != [] {
      DistinctDomainsCount(hosts[1..]);
      assert Domains(hosts) == {Domain(hosts[0])} + Domains(hosts[1..]);
    }
  }

  /** As many hosts can be chosen as there are domains. */
  lemma FirstsCount(hosts: seq<Host>)
    ensures |Firsts(hosts, {})| == |Domains(hosts)|
  {
    FirstsAreOnePerDomain(hosts, {});
    DistinctDomainsCount(Firsts(hosts, {}));
    assert Domains(hosts) - {} == Domains(hosts);
  }

  /** In descending order, every host with more free memory than a chosen one is in a domain chosen before it. */
  lemma {:induction false} ChosenBefore(c: Config, hosts: seq<Host>, used: set<string>, k: nat, h: Host)
    requires Descending(c, hosts) && k < |Firsts(hosts, used)| && h in hosts
    requires FreeMemory(c, Firsts(hosts, used)[k]) < FreeMemory(c, h)
    ensures Domain(h) in used + Domains(Firsts(hosts, used)[..k])
  {
    var d := Domain(hosts[0]);
    var chosen := Firsts(hosts, used);
    if d in used {
      if h in hosts[1..] {
        ChosenBefore(c, hosts[1..], used, k, h);
      }
    } else {
      assert k != 0;
      var rest := Firsts(hosts[1..], used + {d});
      assert chosen[..k] == [hosts[0]] + rest[..k - 1];
      assert hosts[0] in chosen[..k];
      if h in hosts[1..] {
        ChosenBefore(c, hosts[1..], used + {d}, k - 1, h);
        assert forall x <- rest[..k - 1] :: x in chosen[..k];
      }
    }
  }

  /** A selection the caller could have made: hosts with room, in separate domains. */
  predicate Selection(c: Config, hosts: seq<Host>, count: nat, request: Resources, s: seq<Host>) {
    && |s| == count
    && (forall h <- s :: h in hosts && HasRoom(c, h, request))
    && DistinctDomains(s)
  }

  /** Place by place, the first hosts have no less memory to hand out than the second. */
  predicate Dominates(c: Config, a: seq<Host>, b: seq<Host>) {
    |a| == |b| && forall i | 0 <= i < |a| ::
      && a[i].capacity.Some? && b[i].capacity.Some?
      && Allocatable(c, b[i].capacity.value).memory - b[i].used.memory
         <= Allocatable(c, a[i].capacity.value).memory - a[i].used.memory
  }

  /** Any `k + 1` hosts in separate domains hold one with no more memory than the one chosen at `k`. */
  lemma GreedyBeats(c: Config, hosts: seq<Host>, s: seq<Host>, k: nat)
    requires Descending(c, hosts) && Descending(c, s) && DistinctDomains(s)
    requires forall h <- s :: h in hosts
    requires k < |s| && k < |Firsts(hosts, {})|
    ensures FreeMemory(c, s[k]) <= FreeMemory(c, Firsts(hosts, {})[k])
  {
    var chosen := Firsts(hosts, {});
    if FreeMemory(c, chosen[k]) < FreeMemory(c, s[k]) {
      var better := s[..k + 1];
      forall h <- better
        ensures Domain(h) in Domains(chosen[..k])
      {
        ChosenBefore(c, hosts, {}, k, h);
      }
      SubsetCount(Domains(better), Domains(chosen[..k]));
      DistinctDomainsCount(better);
      FirstsAreOnePerDomain(hosts, {});
      DistinctDomainsCount(chosen[..k]);
      assert false;
    }
  }

  /** The choice from hosts in descending order is the best there is, and exists whenever any does. */
  lemma ChoiceIsBest(c: Config, hosts: seq<Host>, sorted: seq<Host>, count: nat, request: Resources, s: seq<Host>)
    requires multiset(sorted) == multiset(hosts) && Descending(c, sorted)
    requires Selection(c, hosts, count, request, s)
    ensures var chosen := Choose(Roomy(c, sorted, request), count);
            && chosen.Some? && Dominates(c, chosen.value, ByFree(c, s))
            && (MostFirst(c, s) ==> Dominates(c, chosen.value, s))
  {
    SameHosts(sorted, hosts);
    RoomyHolds(c, sorted, request);
    var roomy := Roomy(c, sorted, request);
    SubsetCount(Domains(s), Domains(roomy));
    DistinctDomainsCount(s);
    FirstsCount(roomy);
    var best := ByFree(c, s);
    SortedKeepsDomains(c, s);
    GreedyDominates(c, roomy, best, request);
    if MostFirst(c, s) {
      GreedyDominates(c, roomy, s, request);
    }
  }

  /** Among hosts that said how large they are, the two ways to order them are one. */
  lemma SameOrder(c: Config, s: seq<Host>)
    requires forall h <- s :: h.capacity.Some?
    ensures MostFirst(c, s) <==> Descending(c, s)
  {
    assert forall i | 0 <= i < |s| :: s[i] in s;
  }

  lemma {:induction false} FirstsDescend(c: Config, hosts: seq<Host>, used: set<string>)
    requires Descending(c, hosts)
    ensures Descending(c, Firsts(hosts, used))
  {
    if hosts != [] {
      if Domain(hosts[0]) in used {
        FirstsDescend(c, hosts[1..], used);
      } else {
        FirstsDescend(c, hosts[1..], used + {Domain(hosts[0])});
        FirstsAreOnePerDomain(hosts[1..], used + {Domain(hosts[0])});
        Prepended(c, hosts[0], Firsts(hosts[1..], used + {Domain(hosts[0])}));
      }
    }
  }

  lemma ChoiceIsOrdered(c: Config, sorted: seq<Host>, count: nat, request: Resources)
    requires Descending(c, sorted) && Choose(Roomy(c, sorted, request), count).Some?
    ensures MostFirst(c, Choose(Roomy(c, sorted, request), count).value)
  {
    RoomyHolds(c, sorted, request);
    var roomy := Roomy(c, sorted, request);
    FirstsDescend(c, roomy, {});
    FirstsAreOnePerDomain(roomy, {});
    var chosen := Firsts(roomy, {})[..count];
    assert forall h <- chosen :: h in Firsts(roomy, {});
    SameOrder(c, chosen);
  }

  lemma GreedyDominates(c: Config, hosts: seq<Host>, s: seq<Host>, request: Resources)
    requires Descending(c, hosts) && MostFirst(c, s) && DistinctDomains(s)
    requires forall h <- hosts :: HasRoom(c, h, request)
    requires (forall h <- s :: h in hosts) && |s| <= |Firsts(hosts, {})|
    ensures Dominates(c, Firsts(hosts, {})[..|s|], s)
  {
    FirstsAreOnePerDomain(hosts, {});
    SameOrder(c, s);
    var chosen := Firsts(hosts, {});
    forall i | 0 <= i < |s|
      ensures s[i].capacity.Some? && chosen[i].capacity.Some? && FreeMemory(c, s[i]) <= FreeMemory(c, chosen[i])
    {
      assert s[i] in s && chosen[i] in chosen;
      GreedyBeats(c, hosts, s, i);
    }
  }

  lemma SortedKeepsDomains(c: Config, s: seq<Host>)
    requires DistinctDomains(s)
    ensures var best := ByFree(c, s);
            && |best| == |s| && Descending(c, best) && DistinctDomains(best)
            && forall h :: h in best <==> h in s
  {
    ByFreeSorts(c, s);
    SameHosts(ByFree(c, s), s);
    SameDomainsDistinct(s, ByFree(c, s));
  }

  /** Rearranging hosts in separate domains leaves them in separate domains. */
  lemma SameDomainsDistinct(a: seq<Host>, b: seq<Host>)
    requires multiset(a) == multiset(b) && DistinctDomains(a)
    ensures DistinctDomains(b)
  {
    forall i, j | 0 <= i < j < |b|
      ensures Domain(b[i]) != Domain(b[j])
    {
      SameHosts(a, b);
      assert b[i] in b && b[j] in b;
      var x :| 0 <= x < |a| && a[x] == b[i];
      var y :| 0 <= y < |a| && a[y] == b[j];
      OnceEach(a, x);
      OnlyOnce(b, i, j);
      assert x != y;
    }
  }

  lemma OnlyOnce(b: seq<Host>, i: nat, j: nat)
    requires i < j < |b| && multiset(b)[b[i]] == 1
    ensures b[i] != b[j]
  {
    assert b == b[..j] + b[j..];
    assert b[i] in b[..j] && b[j] in b[j..];
    assert multiset(b) == multiset(b[..j]) + multiset(b[j..]);
  }

  lemma OnceEach(a: seq<Host>, x: nat)
    requires DistinctDomains(a) && x < |a|
    ensures multiset(a)[a[x]] == 1
  {
    assert a == a[..x] + [a[x]] + a[x + 1..];
    assert a[x] !in a[..x] && a[x] !in a[x + 1..];
    assert multiset(a) == multiset(a[..x]) + multiset{a[x]} + multiset(a[x + 1..]);
  }

  lemma ChoiceIsSelection(c: Config, hosts: seq<Host>, sorted: seq<Host>, count: nat, request: Resources)
    requires multiset(sorted) == multiset(hosts) && Descending(c, sorted)
    requires Choose(Roomy(c, sorted, request), count).Some?
    ensures Selection(c, hosts, count, request, Choose(Roomy(c, sorted, request), count).value)
  {
    SameHosts(sorted, hosts);
    RoomyHolds(c, sorted, request);
    FirstsAreOnePerDomain(Roomy(c, sorted, request), {});
  }

  // ---- The methods ----

  lemma FirstsFrom(hosts: seq<Host>, i: nat, used: set<string>)
    requires i < |hosts|
    ensures Firsts(hosts[i..], used)
         == if Domain(hosts[i]) in used then Firsts(hosts[i + 1..], used)
            else [hosts[i]] + Firsts(hosts[i + 1..], used + {Domain(hosts[i])})
  {
    assert hosts[i..][0] == hosts[i] && hosts[i..][1..] == hosts[i + 1..];
  }

  /** Take hosts in turn whose domain no host taken has, until there are enough. */
  method ChooseHosts(candidates: seq<Host>, count: nat) returns (r: Option<seq<Host>>)
    ensures r == Choose(candidates, count)
    ensures r.Some? <==> count <= |Domains(candidates)|
  {
    var used: set<string> := {};
    var chosen: seq<Host> := [];
    var i := 0;
    while i < |candidates| && |chosen| < count
      invariant i <= |candidates| && |chosen| <= count
      invariant chosen + Firsts(candidates[i..], used) == Firsts(candidates, {})
    {
      FirstsFrom(candidates, i, used);
      if Domain(candidates[i]) !in used {
        ghost var rest := Firsts(candidates[i + 1..], used + {Domain(candidates[i])});
        assert chosen + ([candidates[i]] + rest) == chosen + [candidates[i]] + rest;
        used := used + {Domain(candidates[i])};
        chosen := chosen + [candidates[i]];
      }
      i := i + 1;
    }
    FirstsCount(candidates);
    if |chosen| == count {
      assert Firsts(candidates, {})[..count] == chosen;
      r := Some(chosen);
    } else {
      assert candidates[i..] == [];
      r := None;
    }
  }

  datatype Placement = Placed(hosts: seq<Host>) | TooFewHosts | NoRoom

  /**
  Sort the hosts, keep those with room and choose from them. The hosts chosen have at
  least as much free memory, place by place, as any others with room that would do.
  */
  method Place(c: Config, hosts: seq<Host>, count: nat, request: Resources) returns (r: Placement)
    ensures r.Placed? <==> exists s :: Selection(c, hosts, count, request, s)
    ensures r.TooFewHosts? <==> |Domains(hosts)| < count
    ensures r.Placed? ==> Selection(c, hosts, count, request, r.hosts) && MostFirst(c, r.hosts)
    ensures r.Placed? ==> forall s | Selection(c, hosts, count, request, s) && MostFirst(c, s) :: Dominates(c, r.hosts, s)
    ensures r.Placed? ==> forall s | Selection(c, hosts, count, request, s) :: Dominates(c, r.hosts, ByFree(c, s))
  {
    var byFree := ByFree(c, hosts);
    ByFreeSorts(c, hosts);
    forall s | Selection(c, hosts, count, request, s)
      ensures Choose(Roomy(c, byFree, request), count).Some?
      ensures Dominates(c, Choose(Roomy(c, byFree, request), count).value, ByFree(c, s))
      ensures MostFirst(c, s) ==> Dominates(c, Choose(Roomy(c, byFree, request), count).value, s)
    {
      ChoiceIsBest(c, hosts, byFree, count, request, s);
    }
    SameHosts(byFree, hosts);
    assert Domains(byFree) == Domains(hosts);
    var chosen := ChooseHosts(Roomy(c, byFree, request), count);
    if chosen.Some? {
      ChoiceIsSelection(c, hosts, byFree, count, request);
      ChoiceIsOrdered(c, byFree, count, request);
      TooFewDomains(c, hosts, count, request, chosen.value);
      return Placed(chosen.value);
    }
    var any := ChooseHosts(byFree, count);
    r := if any.None? then TooFewHosts else NoRoom;
  }

  lemma TooFewDomains(c: Config, hosts: seq<Host>, count: nat, request: Resources, s: seq<Host>)
    requires Selection(c, hosts, count, request, s)
    ensures count <= |Domains(hosts)|
  {
    SubsetCount(Domains(s), Domains(hosts));
    DistinctDomainsCount(s);
  }
}
