/**
Rotation of the admin CA: the `trust`, `issue` and `trim` phases of one service
instance and the hosts that follow it.

Everything that can happen is an event of `Next`, and `Run` replays any list of
events, so a theorem about `Run(Init(ca), es)` speaks of every reachable state.
An event that is not possible in a state changes nothing.
*/
module AdminCa {
  import opened Common

  /** A CA certificate and its key. A new one is numbered from a counter, so no two are alike. */
  type Ca = nat
  type HostId = nat

  datatype Phase = Trust | Issue | Trim
  datatype Rotation = Rotation(phase: Phase, oldCa: Ca, newCa: Ca)

  /** `ca.key` and `ca.crt`, which are replaced one after the other. */
  datatype Disk = Disk(key: Ca, crt: Ca)

  /** How far one call of `advance` has come. */
  datatype Move = Checked(next: Rotation) | Applied(next: Rotation) | Finishing

  datatype Service = Service(
    disk: Disk,
    row: Option<Rotation>,        // the stored rotation
    signer: Ca,
    presented: Ca,                // the CA of the listeners' certificate
    trusted: set<Ca>,             // the CAs whose client certificates are accepted
    moving: Option<Move>,
    nextCa: Ca)

  /** What an enrolled host holds, and what the service last recorded about it. */
  datatype Host = Host(
    trusts: seq<Ca>,              // its CA file
    inbox: Option<seq<Ca>>,       // a bundle it has fetched and not yet put in place
    cert: Ca,                     // the CA that signed the certificate it holds
    recorded: Ca,                 // the CA that signed the certificate last issued to it
    fingerprint: Option<seq<Ca>>) // the bundle it last reported

  datatype World = World(svc: Service, hosts: map<HostId, Host>)

  /** Where `apply` stops: before any change, before the listeners, before the disk, between its files, or at its end. */
  datatype Outcome = Nothing | SignerOnly | MemoryOnly | KeyOnly | Whole

  datatype ServiceEvent =
    | Start(outcome: Outcome)
    | Reapply                     // `start` applies the row it stored, once others have seen it
    | Check
    | ApplyMove(outcome: Outcome)
    | StoreMove(ok: bool)
    | Finish
    | Restart

  datatype HostEvent = Fetch | Publish | Report | Renew | LoseRenewal

  datatype Event =
    | Admin(step: ServiceEvent)
    | AtHost(id: HostId, act: HostEvent)
    | Enroll(id: HostId)
    | Remove(id: HostId)

  // ---- The service ----

  function Bundle(r: Rotation): seq<Ca> {
    if r.phase.Trim? then [r.newCa] else [r.newCa, r.oldCa]
  }

  function ApplySigner(s: Service, r: Rotation): Service {
    s.(signer := if r.phase.Trust? then s.signer else r.newCa)
  }

  /** The part of `apply` that changes the running process. */
  function ApplyMemory(s: Service, r: Rotation): Service {
    var signing := ApplySigner(s, r);
    signing.(presented := signing.signer,
             trusted := if r.phase.Trim? then {r.newCa} else {r.oldCa, r.newCa})
  }

  function Apply(s: Service, r: Rotation, outcome: Outcome): Service {
    var m := ApplyMemory(s, r);
    match outcome
    case Nothing => s
    case SignerOnly => ApplySigner(s, r)
    case MemoryOnly => m
    case KeyOnly => if r.phase.Trim? then m.(disk := m.disk.(key := r.newCa)) else m
    case Whole => if r.phase.Trim? then m.(disk := Disk(r.newCa, r.newCa)) else m
  }

  /** The process comes back with the CA on disk, then `resume` applies the stored phase. */
  function Restarted(s: Service): Service {
    var booted := s.(signer := s.disk.crt, presented := s.disk.crt, trusted := {s.disk.crt}, moving := None);
    if s.row.Some? then Apply(booted, s.row.value, Whole) else booted
  }

  /** What `advance` does once no host is waited for. */
  function MoveOn(r: Rotation): Move {
    match r.phase
    case Trust => Checked(r.(phase := Issue))
    case Issue => Checked(r.(phase := Trim))
    case Trim => Finishing
  }

  function ServiceNext(s: Service, e: ServiceEvent, noneWaiting: bool): Service {
    match e
    case Start(outcome) =>
      if s.row.Some? then s else
      var r := Rotation(Trust, s.signer, s.nextCa);
      Apply(s.(row := Some(r), nextCa := s.nextCa + 1), r, outcome)
    case Reapply =>
      if s.row.Some? && s.row.value.phase.Trust? then Apply(s, s.row.value, Whole) else s
    case Check =>
      if s.row.Some? && s.moving.None? && noneWaiting then s.(moving := Some(MoveOn(s.row.value))) else s
    case ApplyMove(outcome) =>
      if s.moving.Some? && s.moving.value.Checked? then
        var r := s.moving.value.next;
        Apply(s, r, outcome).(moving := if outcome.Whole? then Some(Applied(r)) else None)
      else s
    case StoreMove(ok) =>
      if s.moving.Some? && s.moving.value.Applied? then
        s.(row := if ok then Some(s.moving.value.next) else s.row, moving := None)
      else s
    case Finish =>
      if s.moving == Some(Finishing) then s.(row := None, moving := None) else s
    case Restart => Restarted(s)
  }

  // ---- The hosts ----

  predicate CaughtUp(h: Host, r: Rotation) {
    if r.phase.Issue? then h.recorded == r.newCa else h.fingerprint == Some(Bundle(r))
  }

  /** The hosts a phase is waiting for. */
  function WaitingFor(hosts: map<HostId, Host>, r: Rotation): (ids: set<HostId>)
    ensures ids == {} <==> forall id <- hosts :: CaughtUp(hosts[id], r)
  {
    var ids := set id | id in hosts && !CaughtUp(hosts[id], r);
    assert forall id <- hosts :: !CaughtUp(hosts[id], r) ==> id in ids;
    ids
  }

  /** Both ends of a TLS connection accept each other. */
  predicate Connects(s: Service, h: Host) {
    s.presented in h.trusts && h.cert in s.trusted
  }

  function HostNext(s: Service, h: Host, act: HostEvent): Host {
    match act
    case Fetch =>
      if Connects(s, h) && h.inbox.None? && s.row.Some? then h.(inbox := Some(Bundle(s.row.value))) else h
    case Publish => if h.inbox.Some? then h.(trusts := h.inbox.value, inbox := None) else h
    case Report => if Connects(s, h) then h.(fingerprint := Some(h.trusts)) else h
    case Renew => if Connects(s, h) && SafeToRenew(s) then Renewed(s, h) else h
    case LoseRenewal => if Connects(s, h) && SafeToLose(s, h) then Lost(s, h) else h
  }

  /** A host gets a new certificate from the CA in use. */
  function Renewed(s: Service, h: Host): Host {
    h.(cert := s.signer, recorded := s.signer)
  }

  /** One is signed and recorded, and the answer that carries it is lost. */
  function Lost(s: Service, h: Host): Host {
    h.(recorded := s.signer)
  }

  /** A certificate of the new CA is recorded only for a host that holds one. */
  predicate SafeToLose(s: Service, h: Host) {
    s.row.Some? && s.signer == s.row.value.newCa ==> h.cert == s.row.value.newCa
  }

  /** The service accepts the certificates it signs. */
  predicate SafeToRenew(s: Service) {
    s.signer in s.trusted
  }

  // ---- Both together ----

  /**
  A host enrols: it trusts the CA it fetched, which signs its first certificate. One that
  enrolled before has started afresh, while the bundle it last reported stays recorded.
  */
  function Enrolled(w: World, id: HostId): World {
    var fingerprint := if id in w.hosts then w.hosts[id].fingerprint else None;
    w.(hosts := w.hosts[id := Host([w.svc.signer], None, w.svc.signer, w.svc.signer, fingerprint)])
  }

  /**
  In `trust`, no move to `issue` is under way, neither checked nor applied and left
  unstored, and the host is not recorded as having the bundle that it starts without.
  */
  predicate SafeToEnroll(w: World, id: HostId) {
    w.svc.row.Some? && w.svc.row.value.phase.Trust? ==>
      && w.svc.moving.None? && w.svc.signer == w.svc.row.value.oldCa
      && (id in w.hosts ==> w.hosts[id].fingerprint != Some(Bundle(w.svc.row.value)))
  }

  function Next(w: World, e: Event): World {
    match e
    case Admin(step) =>
      w.(svc := ServiceNext(w.svc, step, w.svc.row.Some? && WaitingFor(w.hosts, w.svc.row.value) == {}))
    case AtHost(id, act) =>
      if id in w.hosts then w.(hosts := w.hosts[id := HostNext(w.svc, w.hosts[id], act)]) else w
    case Enroll(id) =>
      if w.svc.presented == w.svc.signer && SafeToEnroll(w, id) then Enrolled(w, id) else w
    case Remove(id) => w.(hosts := w.hosts - {id})
  }

  function Init(ca: Ca): World {
    World(Service(Disk(ca, ca), None, ca, ca, {ca}, None, ca + 1), map[])
  }

  function Run(w: World, es: seq<Event>): World {
    if es == [] then w else Next(Run(w, es[..|es| - 1]), es[|es| - 1])
  }

  /** Every enrolled host and the service accept each other's certificates. */
  ghost predicate MutualTrust(w: World) {
    forall id <- w.hosts :: Connects(w.svc, w.hosts[id])
  }

  // ---- The invariant ----

  predicate ServiceOk(s: Service) {
    match s.row
    case None =>
      && s.disk == Disk(s.signer, s.signer)
      && s.presented == s.signer
      && s.trusted == {s.signer}
      && s.moving.None?
      && s.signer < s.nextCa
    case Some(r) =>
      && r.oldCa < s.nextCa && r.newCa < s.nextCa && r.oldCa != r.newCa
      && match r.phase
         case Trust =>
           && s.disk == Disk(r.oldCa, r.oldCa)
           && s.signer in {r.oldCa, r.newCa}
           && s.presented in {r.oldCa, s.signer}
           && s.trusted in {{r.oldCa, r.newCa}, {r.oldCa}}
           && (s.presented == r.newCa ==> s.trusted == {r.oldCa, r.newCa})
           && (s.moving.Some? ==> s.moving.value in {Checked(r.(phase := Issue)), Applied(r.(phase := Issue))})
           && (s.moving == Some(Applied(r.(phase := Issue))) ==> s.presented == r.newCa)
         case Issue =>
           && s.signer == s.presented == r.newCa
           && s.trusted in {{r.oldCa, r.newCa}, {r.newCa}}
           && (s.moving.Some? ==> s.moving.value in {Checked(r.(phase := Trim)), Applied(r.(phase := Trim))})
           && (s.moving == Some(Applied(r.(phase := Trim))) ==>
                 s.trusted == {r.newCa} && s.disk == Disk(r.newCa, r.newCa))
         case Trim =>
           && s.disk == Disk(r.newCa, r.newCa)
           && s.signer == s.presented == r.newCa
           && s.trusted == {r.newCa}
           && (s.moving.Some? ==> s.moving.value.Finishing?)
  }

  /** `ca` is in the host's file, and in whatever it puts there next. */
  predicate Keeps(h: Host, ca: Ca) {
    ca in h.trusts && (h.inbox.Some? ==> ca in h.inbox.value)
  }

  /** The host has, or has reported, the bundle of `r`. */
  predicate HasBundle(h: Host, r: Rotation) {
    h.trusts == Bundle(r) || h.fingerprint == Some(Bundle(r))
  }

  predicate Below(cas: seq<Ca>, nextCa: Ca) {
    forall i | 0 <= i < |cas| :: cas[i] < nextCa
  }

  predicate KnownCas(h: Host, nextCa: Ca) {
    && Below(h.trusts, nextCa)
    && (h.inbox.Some? ==> Below(h.inbox.value, nextCa))
    && (h.fingerprint.Some? ==> Below(h.fingerprint.value, nextCa))
  }

  predicate HostOk(s: Service, h: Host) {
    && KnownCas(h, s.nextCa)
    && h.cert in s.trusted
    && h.recorded < s.nextCa
    && (s.row.Some? && h.recorded == s.row.value.newCa ==> h.cert == s.row.value.newCa)
    && match s.row
       case None => Keeps(h, s.signer)
       case Some(r) =>
         match r.phase
         case Trust =>
           && Keeps(h, r.oldCa)
           && (HasBundle(h, r) || s.signer == r.newCa || s.moving.Some? ==> Keeps(h, r.newCa))
         case Issue =>
           && Keeps(h, r.newCa)
           && (s.moving.Some? ==> h.recorded == r.newCa)
         case Trim => Keeps(h, r.newCa)
  }

  ghost predicate Inv(w: World) {
    ServiceOk(w.svc) && forall id <- w.hosts :: HostOk(w.svc, w.hosts[id])
  }

  lemma ServiceStep(s: Service, e: ServiceEvent, noneWaiting: bool)
    requires ServiceOk(s)
    ensures ServiceOk(ServiceNext(s, e, noneWaiting))
  {
  }

  /** A host that had what the service needed still has it after the service moves. */
  lemma HostThroughServiceStep(s: Service, h: Host, e: ServiceEvent, noneWaiting: bool)
    requires ServiceOk(s) && HostOk(s, h)
    requires noneWaiting ==> s.row.Some? && CaughtUp(h, s.row.value)
    ensures HostOk(ServiceNext(s, e, noneWaiting), h)
  {
    if e.Start? && s.row.None? {
      assert Bundle(Rotation(Trust, s.signer, s.nextCa))[0] == s.nextCa;
    }
  }

  lemma HostStep(s: Service, h: Host, act: HostEvent)
    requires ServiceOk(s) && HostOk(s, h)
    ensures HostOk(s, HostNext(s, h, act))
  {
  }

  lemma StepKeepsInv(w: World, e: Event)
    requires Inv(w)
    ensures Inv(Next(w, e))
  {
    match e
    case Admin(step) =>
      var noneWaiting := w.svc.row.Some? && WaitingFor(w.hosts, w.svc.row.value) == {};
      ServiceStep(w.svc, step, noneWaiting);
      forall id <- w.hosts
        ensures HostOk(ServiceNext(w.svc, step, noneWaiting), w.hosts[id])
      {
        HostThroughServiceStep(w.svc, w.hosts[id], step, noneWaiting);
      }
    case AtHost(id, act) =>
      if id in w.hosts {
        HostStep(w.svc, w.hosts[id], act);
      }
    case Enroll(id) =>
    case Remove(id) =>
  }

  lemma {:induction false} RunKeepsInv(w: World, es: seq<Event>)
    requires Inv(w)
    ensures Inv(Run(w, es))
  {
    if es != [] {
      RunKeepsInv(w, es[..|es| - 1]);
      StepKeepsInv(Run(w, es[..|es| - 1]), es[|es| - 1]);
    }
  }

  lemma InvGivesTrust(w: World)
    requires Inv(w)
    ensures MutualTrust(w)
  {
    forall id <- w.hosts
      ensures Connects(w.svc, w.hosts[id])
    {
      assert HostOk(w.svc, w.hosts[id]);
    }
  }

  // ---- The theorems ----

  /** At no point of any run do a host and the service disagree about whom to trust. */
  lemma NeverLockedOut(ca: Ca, es: seq<Event>)
    ensures MutualTrust(Run(Init(ca), es))
  {
    RunKeepsInv(Init(ca), es);
    InvGivesTrust(Run(Init(ca), es));
  }

  /** No run from here locks a host out. */
  ghost predicate StaysTrusted(w: World) {
    forall more :: MutualTrust(Run(w, more))
  }

  lemma InvStaysTrusted(w: World)
    requires Inv(w)
    ensures StaysTrusted(w)
  {
    forall more
      ensures MutualTrust(Run(w, more))
    {
      RunKeepsInv(w, more);
      InvGivesTrust(Run(w, more));
    }
  }

  /**
  Enrolling a host, for the first time or again, is safe exactly when no move from
  `trust` to `issue` is under way and, in `trust`, the service does not hold a report
  of the bundle from before. Elsewhere a run locks the host out.
  */
  lemma EnrollingIsSafeExactlyWhen(ca: Ca, es: seq<Event>, id: HostId)
    ensures var w := Run(Init(ca), es);
            StaysTrusted(Enrolled(w, id)) <==> SafeToEnroll(w, id)
  {
    var w := Run(Init(ca), es);
    RunKeepsInv(Init(ca), es);
    if SafeToEnroll(w, id) {
      SafeEnrolment(w, id);
      InvStaysTrusted(Enrolled(w, id));
    } else if w.svc.moving.None? && w.svc.signer == w.svc.row.value.oldCa {
      StaleReport(w, id);
    } else {
      EnrolmentDuringMove(w, id);
    }
  }

  lemma SafeEnrolment(w: World, id: HostId)
    requires Inv(w) && SafeToEnroll(w, id)
    ensures Inv(Enrolled(w, id))
  {
    assert id in w.hosts ==> HostOk(w.svc, w.hosts[id]);
  }

  lemma EnrolmentDuringMove(w: World, id: HostId)
    requires Inv(w) && InPhase(w.svc, Trust) && (w.svc.moving.Some? || w.svc.signer != w.svc.row.value.oldCa)
    ensures !StaysTrusted(Enrolled(w, id))
  {
    var t := Enrolled(w, id);
    var last := Admin(if w.svc.signer == w.svc.row.value.newCa then Restart else ApplyMove(Whole));
    assert Run(t, [last]) == Next(Run(t, []), last);
    assert !Connects(Run(t, [last]).svc, t.hosts[id]);
  }

  /** The old report passes for a new one, so `trust` ends before the host has the bundle. */
  lemma StaleReport(w: World, id: HostId)
    requires Inv(w) && InPhase(w.svc, Trust) && w.svc.moving.None? && w.svc.signer == w.svc.row.value.oldCa
    requires id in w.hosts && w.hosts[id].fingerprint == Some(Bundle(w.svc.row.value))
    ensures !StaysTrusted(Enrolled(w, id))
  {
    var t := Enrolled(w, id);
    var es := RemoveOthers(t, id, t.hosts.Keys - {id}, []);
    es := AddEvent(t, es, Admin(Check));
    es := AddEvent(t, es, Admin(ApplyMove(Whole)));
    assert !Connects(Run(t, es).svc, Run(t, es).hosts[id]);
  }

  /** Giving a host a new certificate is safe exactly when the service accepts what it signs. */
  lemma RenewingIsSafeExactlyWhen(ca: Ca, es: seq<Event>, id: HostId)
    requires id in Run(Init(ca), es).hosts
    ensures var w := Run(Init(ca), es);
            StaysTrusted(w.(hosts := w.hosts[id := Renewed(w.svc, w.hosts[id])])) <==> SafeToRenew(w.svc)
  {
    var w := Run(Init(ca), es);
    var t := w.(hosts := w.hosts[id := Renewed(w.svc, w.hosts[id])]);
    RunKeepsInv(Init(ca), es);
    InvGivesTrust(w);
    if SafeToRenew(w.svc) {
      HostStep(w.svc, w.hosts[id], Renew);
      InvStaysTrusted(t);
    } else {
      assert Run(t, []) == t && !Connects(t.svc, t.hosts[id]);
    }
  }

  /**
  Losing the answer to a renewal is safe exactly when it does not record a certificate of the
  new CA for a host that still holds one of the old: `issue` would end without that host.
  */
  lemma LosingIsSafeExactlyWhen(ca: Ca, es: seq<Event>, id: HostId)
    requires id in Run(Init(ca), es).hosts
    ensures var w := Run(Init(ca), es);
            StaysTrusted(w.(hosts := w.hosts[id := Lost(w.svc, w.hosts[id])])) <==> SafeToLose(w.svc, w.hosts[id])
  {
    var w := Run(Init(ca), es);
    RunKeepsInv(Init(ca), es);
    InvGivesTrust(w);
    if SafeToLose(w.svc, w.hosts[id]) {
      HostStep(w.svc, w.hosts[id], LoseRenewal);
      InvStaysTrusted(w.(hosts := w.hosts[id := Lost(w.svc, w.hosts[id])]));
    } else {
      UnsafeLoss(w, id);
    }
  }

  /** After a restart, with every other host gone. */
  lemma AloneAfterRestart(w: World, id: HostId) returns (es: seq<Event>)
    requires id in w.hosts
    ensures forall e <- es :: !e.Enroll?
    ensures Run(w, es) == World(Restarted(w.svc), map[id := w.hosts[id]])
  {
    es := [Admin(Restart)];
    RunExtend(w, [], es[0]);
    es := RemoveOthers(w, id, Run(w, es).hosts.Keys - {id}, es);
  }

  /** One host that accepts the service takes the bundle and reports it. */
  lemma TakesBundle(w: World, es: seq<Event>, id: HostId, h: Host) returns (more: seq<Event>)
    requires var t := Run(w, es);
             && t.hosts == map[id := h] && InPhase(t.svc, Trust)
             && t.svc.presented == t.svc.row.value.oldCa && Keeps(h, t.svc.row.value.oldCa) && h.cert in t.svc.trusted
    requires forall e <- es :: !e.Enroll?
    ensures forall e <- more :: !e.Enroll?
    ensures var b := Bundle(Run(w, es).svc.row.value);
            Run(w, more) == World(Run(w, es).svc, map[id := Host(b, None, h.cert, h.recorded, Some(b))])
  {
    more := AddEvent(w, es, AtHost(id, Publish));
    more := AddEvent(w, more, AtHost(id, Fetch));
    more := AddEvent(w, more, AtHost(id, Publish));
    more := AddEvent(w, more, AtHost(id, Report));
  }

  /** Then nothing holds up the move to `issue`. */
  lemma PassTrust(w: World, es: seq<Event>, id: HostId, h: Host) returns (more: seq<Event>)
    requires var t := Run(w, es);
             && t.hosts == map[id := h] && InPhase(t.svc, Trust) && t.svc.moving.None?
             && t.svc.presented == t.svc.row.value.oldCa && Keeps(h, t.svc.row.value.oldCa) && h.cert in t.svc.trusted
    requires forall e <- es :: !e.Enroll?
    ensures forall e <- more :: !e.Enroll?
    ensures var t := Run(w, more);
            && InPhase(t.svc, Issue) && t.svc.moving.None? && t.svc.row.value.newCa == Run(w, es).svc.row.value.newCa
            && id in t.hosts && t.hosts.Keys == {id}
            && t.hosts[id].cert == h.cert && t.hosts[id].recorded == h.recorded
  {
    more := TakesBundle(w, es, id, h);
    more := AddEvent(w, more, Admin(Check));
    more := AddEvent(w, more, Admin(ApplyMove(Whole)));
    more := AddEvent(w, more, Admin(StoreMove(true)));
  }

  lemma UnsafeLoss(w: World, id: HostId)
    requires Inv(w) && id in w.hosts && !SafeToLose(w.svc, w.hosts[id])
    ensures !StaysTrusted(w.(hosts := w.hosts[id := Lost(w.svc, w.hosts[id])]))
  {
    var h := Lost(w.svc, w.hosts[id]);
    var t := w.(hosts := w.hosts[id := h]);
    assert HostOk(w.svc, w.hosts[id]);
    var es := AloneAfterRestart(t, id);
    if InPhase(w.svc, Trust) {
      es := PassTrust(t, es, id, h);
    }
    IssueEndsWithout(t, es, id);
  }

  lemma IssueEndsWithout(w: World, es: seq<Event>, id: HostId)
    requires var t := Run(w, es);
             && InPhase(t.svc, Issue) && t.svc.moving.None? && id in t.hosts && t.hosts.Keys == {id}
             && t.hosts[id].recorded == t.svc.row.value.newCa != t.hosts[id].cert
    requires forall e <- es :: !e.Enroll?
    ensures !StaysTrusted(w)
  {
    var more := AddEvent(w, es, Admin(Check));
    more := AddEvent(w, more, Admin(ApplyMove(Whole)));
    assert !Connects(Run(w, more).svc, Run(w, more).hosts[id]);
  }

  /** A host enrols, a rotation starts, and the host reports the bundle of both CAs. */
  lemma HostReports(ca: Ca, outcome: Outcome) returns (es: seq<Event>)
    ensures var w := Run(Init(ca), es);
            var r := Rotation(Trust, ca, ca + 1);
            && w.svc == ServiceNext(Init(ca).svc, Start(outcome), false)
            && w.hosts == map[0 := Host(Bundle(r), None, ca, ca, Some(Bundle(r)))]
  {
    var w := Init(ca);
    assert Run(w, [Enroll(0)]) == Next(Run(w, []), Enroll(0));
    es := [Enroll(0)];
    RunExtend(w, es, Admin(Start(outcome)));
    es := es + [Admin(Start(outcome))];
    RunExtend(w, es, AtHost(0, Fetch));
    es := es + [AtHost(0, Fetch)];
    RunExtend(w, es, AtHost(0, Publish));
    es := es + [AtHost(0, Publish)];
    RunExtend(w, es, AtHost(0, Report));
    es := es + [AtHost(0, Report)];
  }

  /** With no move under way, a host that reported and then enrols afresh can still be locked out. */
  lemma EnrollingAgainCanLockOut(ca: Ca) returns (es: seq<Event>)
    ensures var w := Run(Init(ca), es);
            && 0 in w.hosts && InPhase(w.svc, Trust) && w.svc.moving.None? && w.svc.signer == w.svc.row.value.oldCa
            && !StaysTrusted(Enrolled(w, 0))
  {
    es := HostReports(ca, Whole);
    EnrollingIsSafeExactlyWhen(ca, es, 0);
  }

  /** With no host yet, a start and a check: a move from `trust` to `issue` is under way. */
  lemma MoveCanBeUnderWay(ca: Ca, id: HostId)
    ensures var w := Run(Init(ca), [Admin(Start(Whole)), Admin(Check)]);
            && w.svc.row == Some(Rotation(Trust, ca, ca + 1))
            && w.svc.moving == Some(Checked(Rotation(Issue, ca, ca + 1))) && !SafeToEnroll(w, id)
  {
    var w := Init(ca);
    RunExtend(w, [], Admin(Start(Whole)));
    RunExtend(w, [Admin(Start(Whole))], Admin(Check));
    assert [] + [Admin(Start(Whole))] == [Admin(Start(Whole))];
    assert [Admin(Start(Whole))] + [Admin(Check)] == [Admin(Start(Whole)), Admin(Check)];
  }

  /** The move done, `issue` is reached, where enrolling is safe and not clean. */
  lemma IssueIsReached(ca: Ca, id: HostId) returns (es: seq<Event>)
    ensures NoEnrolmentInIssue(Init(ca), es)
    ensures var w := Run(Init(ca), es); InPhase(w.svc, Issue) && SafeToEnroll(w, id)
  {
    var w := Init(ca);
    MoveCanBeUnderWay(ca, id);
    es := [Admin(Start(Whole)), Admin(Check)];
    es := AddEvent(w, es, Admin(ApplyMove(Whole)));
    es := AddEvent(w, es, Admin(StoreMove(true)));
  }

  /** In `issue`, a host that holds a certificate of the old CA can lose the answer to its renewal. */
  lemma RenewalCanBeLost(ca: Ca) returns (es: seq<Event>)
    ensures var w := Run(Init(ca), es);
            InPhase(w.svc, Issue) && 0 in w.hosts && !SafeToLose(w.svc, w.hosts[0])
  {
    var w := Init(ca);
    es := HostReports(ca, Whole);
    assert CaughtUp(Run(w, es).hosts[0], Run(w, es).svc.row.value);
    RunExtend(w, es, Admin(Check));
    es := es + [Admin(Check)];
    RunExtend(w, es, Admin(ApplyMove(Whole)));
    es := es + [Admin(ApplyMove(Whole))];
    RunExtend(w, es, Admin(StoreMove(true)));
    es := es + [Admin(StoreMove(true))];
  }

  /** Two calls of `apply` that fail part-way leave the service signing what it does not accept. */
  lemma RenewingCanLockOut(ca: Ca) returns (es: seq<Event>)
    ensures 0 in Run(Init(ca), es).hosts && !SafeToRenew(Run(Init(ca), es).svc)
  {
    var w := Init(ca);
    es := HostReports(ca, Nothing);
    assert CaughtUp(Run(w, es).hosts[0], Run(w, es).svc.row.value);
    RunExtend(w, es, Admin(Check));
    es := es + [Admin(Check)];
    RunExtend(w, es, Admin(ApplyMove(SignerOnly)));
    es := es + [Admin(ApplyMove(SignerOnly))];
  }

  // ---- How a rotation ends ----

  predicate InPhase(s: Service, phase: Phase) {
    s.row.Some? && s.row.value.phase == phase
  }

  /** No host enrols while the stored phase is `issue`. */
  ghost predicate NoEnrolmentInIssue(w: World, es: seq<Event>) {
    forall k | 0 <= k < |es| && es[k].Enroll? :: !InPhase(Run(w, es[..k]).svc, Issue)
  }

  /** The only CA the host trusts, now and after what it has fetched, is `ca`. */
  predicate TrustsOnly(h: Host, ca: Ca) {
    h.trusts == [ca] && (h.inbox.Some? ==> h.inbox.value == [ca])
  }

  predicate CleanHost(s: Service, h: Host) {
    match s.row
    case None => TrustsOnly(h, s.signer)
    case Some(r) =>
      if r.phase.Trim? then
        h.fingerprint == Some([r.newCa]) || h.trusts == [r.newCa] || s.moving.Some? ==> TrustsOnly(h, r.newCa)
      else
        && h.trusts != [r.newCa]
        && h.inbox != Some([r.newCa])
        && h.fingerprint != Some([r.newCa])
  }

  ghost predicate Clean(w: World) {
    forall id <- w.hosts :: CleanHost(w.svc, w.hosts[id])
  }

  lemma CleanThroughServiceStep(s: Service, h: Host, e: ServiceEvent, noneWaiting: bool)
    requires ServiceOk(s) && HostOk(s, h) && CleanHost(s, h)
    requires noneWaiting ==> s.row.Some? && CaughtUp(h, s.row.value)
    ensures CleanHost(ServiceNext(s, e, noneWaiting), h)
  {
    if e.Start? && s.row.None? {
      assert [s.nextCa][0] == s.nextCa;
    }
  }

  lemma CleanHostStep(s: Service, h: Host, act: HostEvent)
    requires ServiceOk(s) && HostOk(s, h) && CleanHost(s, h)
    ensures CleanHost(s, HostNext(s, h, act))
  {
  }

  lemma StepKeepsClean(w: World, e: Event)
    requires Inv(w) && Clean(w)
    requires e.Enroll? ==> !InPhase(w.svc, Issue)
    ensures Clean(Next(w, e))
  {
    match e
    case Admin(step) =>
      var noneWaiting := w.svc.row.Some? && WaitingFor(w.hosts, w.svc.row.value) == {};
      forall id <- w.hosts
        ensures CleanHost(ServiceNext(w.svc, step, noneWaiting), w.hosts[id])
      {
        CleanThroughServiceStep(w.svc, w.hosts[id], step, noneWaiting);
      }
    case AtHost(id, act) =>
      if id in w.hosts {
        CleanHostStep(w.svc, w.hosts[id], act);
      }
    case Enroll(id) =>
    case Remove(id) =>
  }

  lemma {:induction false} RunKeepsClean(w: World, es: seq<Event>)
    requires Inv(w) && Clean(w) && NoEnrolmentInIssue(w, es)
    ensures Clean(Run(w, es))
  {
    if es != [] {
      var most := es[..|es| - 1];
      forall k | 0 <= k < |most| && most[k].Enroll?
        ensures !InPhase(Run(w, most[..k]).svc, Issue)
      {
        assert most[..k] == es[..k];
      }
      RunKeepsClean(w, most);
      RunKeepsInv(w, most);
      StepKeepsClean(Run(w, most), es[|es| - 1]);
    }
  }

  /**
  The event that ends a rotation leaves the new CA, and no other, trusted on both
  sides, signing, and on disk, if no host enrolled during `issue`.
  */
  lemma OnlyTheNewCaIsLeft(ca: Ca, es: seq<Event>, last: Event)
    requires NoEnrolmentInIssue(Init(ca), es)
    ensures var w := Run(Init(ca), es);
            var t := Next(w, last);
            w.svc.row.Some? && t.svc.row.None? ==>
              var newCa := w.svc.row.value.newCa;
              && t.svc.trusted == {newCa}
              && t.svc.signer == t.svc.presented == newCa
              && t.svc.disk == Disk(newCa, newCa)
              && forall id <- t.hosts :: TrustsOnly(t.hosts[id], newCa)
  {
    RunKeepsInv(Init(ca), es);
    RunKeepsClean(Init(ca), es);
    var w := Run(Init(ca), es);
    if w.svc.row.Some? && Next(w, last).svc.row.None? {
      FinalStep(w, last);
    }
  }

  lemma FinalStep(w: World, last: Event)
    requires Inv(w) && Clean(w) && w.svc.row.Some? && Next(w, last).svc.row.None?
    ensures w.svc.row.value.phase.Trim? && w.svc.moving == Some(Finishing) && last == Admin(Finish)
  {
  }

  /** With no rotation stored, each host trusts the one CA in use and no other. */
  ghost predicate Settled(w: World) {
    w.svc.row.None? ==> forall id <- w.hosts :: TrustsOnly(w.hosts[id], w.svc.signer)
  }

  /**
  Of the safe moments to enrol a host, those in `issue` are exactly the ones that can
  leave the old CA trusted: the host reports the one CA it enrolled with, takes the
  bundle of two, and the rotation ends on that report.
  */
  lemma EnrollingIsCleanExactlyWhen(ca: Ca, es: seq<Event>, id: HostId)
    requires NoEnrolmentInIssue(Init(ca), es)
    ensures var w := Run(Init(ca), es);
            SafeToEnroll(w, id) ==>
              (!InPhase(w.svc, Issue) <==>
               forall more | NoEnrolmentInIssue(Enrolled(w, id), more) :: Settled(Run(Enrolled(w, id), more)))
  {
    var w := Run(Init(ca), es);
    RunKeepsInv(Init(ca), es);
    RunKeepsClean(Init(ca), es);
    if SafeToEnroll(w, id) {
      var t := Enrolled(w, id);
      SafeEnrolment(w, id);
      if InPhase(w.svc, Issue) {
        var _ := LeftTrustingBoth(w, id);
      } else {
        forall more | NoEnrolmentInIssue(t, more)
          ensures Settled(Run(t, more))
        {
          StepKeepsClean(w, Enroll(id));
          RunKeepsClean(t, more);
        }
      }
    }
  }

  lemma RunExtend(w: World, es: seq<Event>, e: Event)
    ensures Run(w, es + [e]) == Next(Run(w, es), e)
  {
    assert (es + [e])[..|es|] == es;
  }

  /** Operators delete every host but one. */
  lemma {:induction false} RemoveOthers(w: World, id: HostId, others: set<HostId>, es: seq<Event>)
    returns (all: seq<Event>)
    requires id in Run(w, es).hosts
    requires others == Run(w, es).hosts.Keys - {id}
    requires forall e <- es :: !e.Enroll?
    ensures forall e <- all :: !e.Enroll?
    ensures Run(w, all).svc == Run(w, es).svc
    ensures Run(w, all).hosts == map[id := Run(w, es).hosts[id]]
    decreases others
  {
    if others == {} {
      assert Run(w, es).hosts.Keys == {id};
      all := es;
    } else {
      var other :| other in others;
      RunExtend(w, es, Remove(other));
      all := RemoveOthers(w, id, others - {other}, es + [Remove(other)]);
    }
  }

  /** All the other hosts go, and the new one publishes what it was given when it enrolled. */
  lemma OnlyItIsLeft(w: World, id: HostId, h: Host) returns (es: seq<Event>)
    requires Inv(w) && InPhase(w.svc, Issue) && Inv(Enrolled(w, id))
    requires var r := w.svc.row.value; h == Host([r.newCa, r.oldCa], None, r.newCa, r.newCa, Some([r.newCa]))
    ensures forall e <- es :: !e.Enroll?
    ensures Run(Enrolled(w, id), es) == World(Restarted(w.svc), map[id := h])
  {
    var t := Enrolled(w, id);
    var r := w.svc.row.value;
    es := [Admin(Restart)];
    RunExtend(t, [], es[0]);
    es := RemoveOthers(t, id, Run(t, es).hosts.Keys - {id}, es);
    assert Run(t, es) == World(Restarted(t.svc), map[id := Host([r.newCa], None, r.newCa, r.newCa, t.hosts[id].fingerprint)]);
    es := AddEvent(t, es, AtHost(id, Report));
    es := AddEvent(t, es, AtHost(id, Fetch));
    es := AddEvent(t, es, AtHost(id, Publish));
  }

  lemma LeftTrustingBoth(w: World, id: HostId) returns (es: seq<Event>)
    requires Inv(w) && InPhase(w.svc, Issue)
    requires Inv(Enrolled(w, id))
    ensures NoEnrolmentInIssue(Enrolled(w, id), es)
    ensures Run(Enrolled(w, id), es).svc.row.None?
    ensures id in Run(Enrolled(w, id), es).hosts
    ensures w.svc.row.value.oldCa in Run(Enrolled(w, id), es).hosts[id].trusts
    ensures !Settled(Run(Enrolled(w, id), es))
  {
    var t := Enrolled(w, id);
    var r := w.svc.row.value;
    var h := Host([r.newCa, r.oldCa], None, r.newCa, r.newCa, Some([r.newCa]));
    es := OnlyItIsLeft(w, id, h);
    es := PassPhase(t, es, id, h);
    es := AddEvent(t, es, Admin(Check));
    es := AddEvent(t, es, Admin(Finish));
  }

  lemma AddEvent(w: World, es: seq<Event>, e: Event) returns (more: seq<Event>)
    requires forall e <- es :: !e.Enroll?
    requires !e.Enroll?
    ensures forall e <- more :: !e.Enroll?
    ensures Run(w, more) == Next(Run(w, es), e)
  {
    more := es + [e];
    RunExtend(w, es, e);
  }

  /** One host, caught up, is all that `issue` waits for. */
  lemma PassPhase(w: World, es: seq<Event>, id: HostId, h: Host) returns (more: seq<Event>)
    requires Run(w, es).hosts == map[id := h]
    requires InPhase(Run(w, es).svc, Issue) && Run(w, es).svc.moving.None?
    requires h.recorded == Run(w, es).svc.row.value.newCa
    requires forall e <- es :: !e.Enroll?
    ensures forall e <- more :: !e.Enroll?
    ensures Run(w, more).hosts == map[id := h]
    ensures Run(w, more).svc.row == Some(Run(w, es).svc.row.value.(phase := Trim))
    ensures Run(w, more).svc.moving.None?
  {
    more := AddEvent(w, es, Admin(Check));
    more := AddEvent(w, more, Admin(ApplyMove(Whole)));
    more := AddEvent(w, more, Admin(StoreMove(true)));
  }

  // ---- What the service's own steps come to ----

  /** The four writes of `apply`, in turn. */
  datatype Write = SetSigner | SetListeners | WriteKey | WriteCrt

  function Written(s: Service, r: Rotation, write: Write): Service {
    match write
    case SetSigner => if r.phase.Trust? then s else s.(signer := r.newCa)
    case SetListeners =>
      s.(presented := s.signer, trusted := {r.newCa} + if r.phase.Trim? then {} else {r.oldCa})
    case WriteKey => if r.phase.Trim? then s.(disk := s.disk.(key := r.newCa)) else s
    case WriteCrt => if r.phase.Trim? then s.(disk := s.disk.(crt := r.newCa)) else s
  }

  function AllWritten(s: Service, r: Rotation, writes: seq<Write>): Service {
    if writes == [] then s else Written(AllWritten(s, r, writes[..|writes| - 1]), r, writes[|writes| - 1])
  }

  /** Wherever `apply` stops, it has done the first of its writes and none of the others. */
  lemma ApplyIsAPrefix(s: Service, r: Rotation, outcome: Outcome)
    ensures var done := match outcome
                        case Nothing => []
                        case SignerOnly => [SetSigner]
                        case MemoryOnly => [SetSigner, SetListeners]
                        case KeyOnly => [SetSigner, SetListeners, WriteKey]
                        case Whole => [SetSigner, SetListeners, WriteKey, WriteCrt];
            Apply(s, r, outcome) == AllWritten(s, r, done)
  {
    var all := [SetSigner, SetListeners, WriteKey, WriteCrt];
    assert all[..3] == [SetSigner, SetListeners, WriteKey] && all[..3][..2] == [SetSigner, SetListeners];
    assert [SetSigner, SetListeners][..1] == [SetSigner] && [SetSigner][..0] == [];
    assert AllWritten(s, r, [SetSigner]) == Written(s, r, SetSigner);
    assert AllWritten(s, r, [SetSigner, SetListeners]) == Written(Written(s, r, SetSigner), r, SetListeners);
    assert {r.newCa} + {r.oldCa} == {r.oldCa, r.newCa};
  }

  /** Whenever the service dies, it comes back in the phase that is stored, with all that the phase has in effect. */
  lemma RestartsInItsPhase(ca: Ca, es: seq<Event>)
    ensures var s, s' := Run(Init(ca), es).svc, Next(Run(Init(ca), es), Admin(Restart)).svc;
            && s'.row == s.row && s'.moving.None? && s'.nextCa == s.nextCa
            && match s.row
               case None => s' == s
               case Some(r) =>
                 && s'.presented == s'.signer == (if r.phase.Trust? then r.oldCa else r.newCa)
                 && s'.trusted == (if r.phase.Trim? then {r.newCa} else {r.oldCa, r.newCa})
                 && (r.phase.Trust? ==> s'.disk == Disk(r.oldCa, r.oldCa))
                 && (r.phase.Trim? ==> s'.disk == Disk(r.newCa, r.newCa))
  {
    RunKeepsInv(Init(ca), es);
  }

  /**
  While a phase is being changed no other check begins, and one that cannot be stored leaves the phase as it
  was. A start whose `apply` failed is made good by the next, with the signer as it is.
  */
  lemma OneMoveAtATime(w: World)
    ensures w.svc.moving.Some? ==> Next(w, Admin(Check)) == w
    ensures Next(w, Admin(StoreMove(false))).svc.row == w.svc.row
    ensures w.svc.row.Some? && w.svc.row.value.phase.Trust? ==>
              Next(w, Admin(Reapply))
              == w.(svc := w.svc.(presented := w.svc.signer, trusted := {w.svc.row.value.oldCa, w.svc.row.value.newCa}))
  {
  }

  /** An answer that is lost changes what is on record, and nothing at the host. */
  lemma LostAnswerIsRecorded(w: World, id: HostId)
    requires id in w.hosts && Connects(w.svc, w.hosts[id]) && SafeToLose(w.svc, w.hosts[id])
    ensures var t := Next(w, AtHost(id, LoseRenewal));
            t == w.(hosts := w.hosts[id := w.hosts[id].(recorded := w.svc.signer)])
  {
  }

  // ---- The calls of the service ----

  /** One running instance, its listeners, its CA directory and its tables. */
  class AdminService {
    var disk: Disk
    var row: Option<Rotation>
    var signer: Ca
    var presented: Ca
    var trusted: set<Ca>
    var nextCa: Ca
    var hosts: map<HostId, Host>

    /** The state between calls: no `advance` is part-way. */
    ghost function State(): World
      reads this
    {
      World(Service(disk, row, signer, presented, trusted, None, nextCa), hosts)
    }

    constructor (ca: Ca)
      ensures State() == Init(ca)
    {
      disk, row, signer, presented, trusted := Disk(ca, ca), None, ca, ca, {ca};
      nextCa, hosts := ca + 1, map[];
    }

    method ApplyPhase(r: Rotation, outcome: Outcome) returns (ok: bool)
      modifies this`disk, this`signer, this`presented, this`trusted
      ensures State() == old(State()).(svc := Apply(old(State()).svc, r, outcome))
      ensures ok == outcome.Whole?
    {
      if outcome.Nothing? {
        return false;
      }
      if !r.phase.Trust? {
        signer := r.newCa;
      }
      if outcome.SignerOnly? {
        return false;
      }
      presented := signer;
      trusted := if r.phase.Trim? then {r.newCa} else {r.oldCa, r.newCa};
      if outcome.MemoryOnly? {
        return false;
      }
      if r.phase.Trim? {
        disk := disk.(key := r.newCa);
        if outcome.Whole? {
          disk := disk.(crt := r.newCa);
        }
      }
      return outcome.Whole?;
    }

    /** Refused while a rotation runs, and otherwise the start of one. */
    method StartRotation(outcome: Outcome) returns (started: bool)
      modifies this
      ensures started == (old(row).None? && outcome.Whole?)
      ensures State() == Next(old(State()), Admin(Start(outcome)))
    {
      if row.Some? {
        return false;
      }
      var r := Rotation(Trust, signer, nextCa);
      nextCa := nextCa + 1;
      row := Some(r);
      started := ApplyPhase(r, outcome);
    }

    /** The boot of the process, which ends with `resume`. */
    method Boot()
      modifies this`signer, this`presented, this`trusted, this`disk
      ensures State() == Next(old(State()), Admin(Restart))
    {
      signer := disk.crt;
      presented := signer;
      trusted := {signer};
      if row.Some? {
        var _ := ApplyPhase(row.value, Whole);
      }
    }

    /** One call of `advance` that nothing interleaves with is these four events. */
    method Advance(outcome: Outcome, stored: bool)
      modifies this
      ensures State() == Run(old(State()),
                             [Admin(Check), Admin(ApplyMove(outcome)), Admin(StoreMove(stored)), Admin(Finish)])
    {
      ghost var before := State();
      CallUnfolds(before, outcome, stored);
      if row.None? {
        return;
      }
      var r := row.value;
      if WaitingFor(hosts, r) != {} {
        return;
      }
      match r.phase {
        case Trust => r := r.(phase := Issue);
        case Issue => r := r.(phase := Trim);
        case Trim =>
          row := None;
          return;
      }
      var ok := ApplyPhase(r, outcome);
      if ok && stored {
        row := Some(r);
      }
    }
  }

  lemma CallUnfolds(w: World, outcome: Outcome, stored: bool)
    ensures Run(w, [Admin(Check), Admin(ApplyMove(outcome)), Admin(StoreMove(stored)), Admin(Finish)])
            == Next(Next(Next(Next(w, Admin(Check)), Admin(ApplyMove(outcome))), Admin(StoreMove(stored))), Admin(Finish))
  {
    var a, b, c, d := Admin(Check), Admin(ApplyMove(outcome)), Admin(StoreMove(stored)), Admin(Finish);
    RunExtend(w, [], a);
    RunExtend(w, [a], b);
    RunExtend(w, [a, b], c);
    RunExtend(w, [a, b, c], d);
    assert [] + [a] == [a] && [a] + [b] == [a, b] && [a, b] + [c] == [a, b, c] && [a, b, c] + [d] == [a, b, c, d];
  }
}
