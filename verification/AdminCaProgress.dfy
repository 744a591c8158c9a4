/** Progress of the admin CA's rotation: from every state it can be seen through, with every host there is. */
module AdminCaProgress {
  import opened Common
  import opened AdminCa

  /** A host's acts, one after the other, while the service stays as it is. */
  function HostDoes(s: Service, h: Host, acts: seq<HostEvent>): Host {
    if acts == [] then h else HostNext(s, HostDoes(s, h, acts[..|acts| - 1]), acts[|acts| - 1])
  }

  lemma Extend(w: World, es: seq<Event>, e: Event) returns (es': seq<Event>)
    ensures Run(w, es') == Next(Run(w, es), e)
  {
    RunExtend(w, es, e);
    es' := es + [e];
  }

  lemma {:induction false} OneDoes(w: World, es: seq<Event>, id: HostId, acts: seq<HostEvent>) returns (es': seq<Event>)
    requires id in Run(w, es).hosts
    ensures var t := Run(w, es);
            Run(w, es') == t.(hosts := t.hosts[id := HostDoes(t.svc, t.hosts[id], acts)])
    decreases |acts|
  {
    es' := es;
    if acts != [] {
      es' := OneDoes(w, es, id, acts[..|acts| - 1]);
      es' := Extend(w, es', AtHost(id, acts[|acts| - 1]));
    }
  }

  /** The hosts named have done the acts, and nothing else has changed. */
  predicate HaveDone(t: World, t': World, ids: set<HostId>, acts: seq<HostEvent>) {
    && t'.svc == t.svc && t'.hosts.Keys == t.hosts.Keys
    && forall id <- t.hosts :: t'.hosts[id] == if id in ids then HostDoes(t.svc, t.hosts[id], acts) else t.hosts[id]
  }

  lemma {:induction false} AllDo(w: World, es: seq<Event>, ids: set<HostId>, acts: seq<HostEvent>) returns (es': seq<Event>)
    requires ids <= Run(w, es).hosts.Keys
    ensures HaveDone(Run(w, es), Run(w, es'), ids, acts)
    decreases ids
  {
    es' := es;
    if ids != {} {
      var id :| id in ids;
      es' := AllDo(w, es, ids - {id}, acts);
      es' := OneDoes(w, es', id, acts);
    }
  }

  // ---- What the acts come to ----

  const CATCH_UP := [Publish, Fetch, Publish, Report]

  /** A host puts away what it fetched before, then reads the present bundle, puts it in place and reports it. */
  lemma CatchesUp(s: Service, h: Host)
    requires s.row.Some? && s.presented in Bundle(s.row.value) && Keeps(h, s.presented) && h.cert in s.trusted
    ensures HostDoes(s, h, CATCH_UP)
         == h.(trusts := Bundle(s.row.value), inbox := None, fingerprint := Some(Bundle(s.row.value)))
  {
    var h1 := HostNext(s, h, Publish);
    var h2 := HostNext(s, h1, Fetch);
    var h3 := HostNext(s, h2, Publish);
    assert CATCH_UP[..3] == [Publish, Fetch, Publish] && CATCH_UP[..3][..2] == [Publish, Fetch];
    assert [Publish, Fetch][..1] == [Publish] && [Publish][..0] == [];
    assert HostDoes(s, h, [Publish]) == h1;
    assert HostDoes(s, h, [Publish, Fetch]) == h2;
    assert HostDoes(s, h, [Publish, Fetch, Publish]) == h3;
  }

  lemma Renews(s: Service, h: Host)
    requires Connects(s, h) && SafeToRenew(s)
    ensures HostDoes(s, h, [Renew]) == h.(cert := s.signer, recorded := s.signer)
  {
    assert [Renew][..0] == [];
  }

  // ---- The phases ----

  /** The service is in the phase, with nothing under way, and every host has what the phase waits for. */
  predicate Through(w: World, r: Rotation) {
    w.svc.row == Some(r) && w.svc.moving.None? && forall id <- w.hosts :: CaughtUp(w.hosts[id], r)
  }

  /** With no host waited for, the next phase is checked, applied and stored. */
  lemma MovesOn(w: World, es: seq<Event>, r: Rotation, phase: Phase) returns (es': seq<Event>)
    requires Through(Run(w, es), r) && ((r.phase.Trust? && phase.Issue?) || (r.phase.Issue? && phase.Trim?))
    ensures var t, r' := Run(w, es), r.(phase := phase);
            Run(w, es') == t.(svc := Apply(t.svc, r', Whole).(row := Some(r'), moving := None))
  {
    es' := Extend(w, es, Admin(Check));
    es' := Extend(w, es', Admin(ApplyMove(Whole)));
    es' := Extend(w, es', Admin(StoreMove(true)));
  }

  /** Every host holds and trusts one CA alone. */
  predicate AllOn(hosts: map<HostId, Host>, ca: Ca) {
    forall id <- hosts :: hosts[id].cert == ca && hosts[id].trusts == [ca] && hosts[id].inbox.None?
  }

  lemma TrustIsPassed(w: World, es: seq<Event>) returns (es': seq<Event>)
    requires Inv(Run(w, es)) && Run(w, es).svc.row.None?
    ensures var t, t' := Run(w, es), Run(w, es');
            var r := Rotation(Issue, t.svc.signer, t.svc.nextCa);
            && t'.hosts.Keys == t.hosts.Keys && t'.svc.row == Some(r) && t'.svc.moving.None?
            && t'.svc.signer == t'.svc.presented == r.newCa && t'.svc.trusted == {r.oldCa, r.newCa}
            && forall id <- t'.hosts ::
                 t'.hosts[id].trusts == [r.newCa, r.oldCa] && t'.hosts[id].inbox.None? && t'.hosts[id].cert == r.oldCa
  {
    var t := Run(w, es);
    assert forall id <- t.hosts :: HostOk(t.svc, t.hosts[id]);
    es' := Extend(w, es, Admin(Start(Whole)));
    var started := Run(w, es');
    es' := AllDo(w, es', started.hosts.Keys, CATCH_UP);
    forall id <- t.hosts
      ensures HostDoes(started.svc, t.hosts[id], CATCH_UP)
           == t.hosts[id].(trusts := Bundle(started.svc.row.value), inbox := None,
                           fingerprint := Some(Bundle(started.svc.row.value)))
    {
      CatchesUp(started.svc, t.hosts[id]);
    }
    es' := MovesOn(w, es', started.svc.row.value, Issue);
  }

  lemma IssueIsPassed(w: World, es: seq<Event>, r: Rotation) returns (es': seq<Event>)
    requires var t := Run(w, es);
             && t.svc.row == Some(r) && r.phase.Issue? && t.svc.moving.None?
             && t.svc.signer == t.svc.presented == r.newCa && t.svc.trusted == {r.oldCa, r.newCa}
             && forall id <- t.hosts ::
                  t.hosts[id].trusts == [r.newCa, r.oldCa] && t.hosts[id].inbox.None? && t.hosts[id].cert == r.oldCa
    ensures var t, t' := Run(w, es), Run(w, es');
            && t'.hosts.Keys == t.hosts.Keys && t'.svc.row == Some(r.(phase := Trim)) && t'.svc.moving.None?
            && t'.svc.signer == t'.svc.presented == r.newCa && t'.svc.trusted == {r.newCa} && t'.svc.disk == Disk(r.newCa, r.newCa)
            && forall id <- t'.hosts ::
                 t'.hosts[id].trusts == [r.newCa, r.oldCa] && t'.hosts[id].inbox.None? && t'.hosts[id].cert == r.newCa
  {
    var t := Run(w, es);
    es' := AllDo(w, es, t.hosts.Keys, [Renew]);
    forall id <- t.hosts
      ensures HostDoes(t.svc, t.hosts[id], [Renew]) == t.hosts[id].(cert := r.newCa, recorded := r.newCa)
    {
      Renews(t.svc, t.hosts[id]);
    }
    es' := MovesOn(w, es', r, Trim);
  }

  lemma TrimIsPassed(w: World, es: seq<Event>, r: Rotation) returns (es': seq<Event>)
    requires var t := Run(w, es);
             && t.svc.row == Some(r) && r.phase.Trim? && t.svc.moving.None?
             && t.svc.signer == t.svc.presented == r.newCa && t.svc.trusted == {r.newCa}
             && forall id <- t.hosts ::
                  t.hosts[id].trusts == [r.newCa, r.oldCa] && t.hosts[id].inbox.None? && t.hosts[id].cert == r.newCa
    ensures var t, t' := Run(w, es), Run(w, es');
            t'.svc == t.svc.(row := None) && t'.hosts.Keys == t.hosts.Keys && AllOn(t'.hosts, r.newCa)
  {
    var t := Run(w, es);
    es' := AllDo(w, es, t.hosts.Keys, CATCH_UP);
    forall id <- t.hosts
      ensures HostDoes(t.svc, t.hosts[id], CATCH_UP)
           == t.hosts[id].(trusts := [r.newCa], inbox := None, fingerprint := Some([r.newCa]))
    {
      CatchesUp(t.svc, t.hosts[id]);
    }
    es' := Extend(w, es', Admin(Check));
    es' := Extend(w, es', Admin(Finish));
  }

  /**
  After every run with no rotation stored, whatever hosts there are, a rotation can be seen through. The
  service then presents, signs with and keeps on disk a new CA, and every host holds and trusts that alone.
  */
  lemma RotationCanFinish(ca: Ca, es: seq<Event>) returns (es': seq<Event>)
    requires Run(Init(ca), es).svc.row.None?
    ensures var t, t' := Run(Init(ca), es), Run(Init(ca), es');
            var newest := t.svc.nextCa;
            && t'.svc.row.None? && t'.hosts.Keys == t.hosts.Keys && AllOn(t'.hosts, newest)
            && t'.svc.signer == t'.svc.presented == newest && t'.svc.trusted == {newest} && t'.svc.disk == Disk(newest, newest)
  {
    RunKeepsInv(Init(ca), es);
    var t := Run(Init(ca), es);
    var r := Rotation(Issue, t.svc.signer, t.svc.nextCa);
    es' := TrustIsPassed(Init(ca), es);
    es' := IssueIsPassed(Init(ca), es', r);
    es' := TrimIsPassed(Init(ca), es', r.(phase := Trim));
  }
}
