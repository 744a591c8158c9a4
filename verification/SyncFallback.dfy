/**
The `sync` fallback: a replicated flag says that commits no longer wait for a standby,
and a Postgres setting makes them wait or not. Writes of either may fail, with or
without having taken effect. There is at least one standby to name.
*/
module SyncFallback {
  import opened Common

  datatype Fallback = Stay | Degrade | Restore

  // ---- The timer ----

  /** One call of the timer: the topology's mode and flag, whether a standby streams, and the time. */
  datatype Call = Call(mode: ReplicationMode, degraded: bool, streaming: bool, now: nat)

  datatype Stepped = Stepped(since: Option<nat>, fallback: Fallback)

  function StepTimer(since: Option<nat>, c: Call, timeout: nat): Stepped {
    if c.mode != Sync || c.streaming then
      Stepped(None, if c.mode == Sync && c.degraded && c.streaming then Restore else Stay)
    else if c.degraded then
      Stepped(since, Stay)
    else
      var from := if since.Some? then since.value else c.now;
      if from + timeout <= c.now then Stepped(None, Degrade) else Stepped(Some(from), Stay)
  }

  class DegradeTimer {
    var noStandbySince: Option<nat>

    constructor ()
      ensures noStandbySince == None
    {
      noStandbySince := None;
    }

    method Step(c: Call, timeout: nat) returns (r: Fallback)
      modifies this
      ensures Stepped(noStandbySince, r) == StepTimer(old(noStandbySince), c, timeout)
    {
      if c.mode != Sync || c.streaming {
        noStandbySince := None;
        var restore := c.mode == Sync && c.degraded && c.streaming;
        return if restore then Restore else Stay;
      }
      if c.degraded {
        return Stay;
      }
      if noStandbySince.None? {
        noStandbySince := Some(c.now);
      }
      if c.now - noStandbySince.value >= timeout {
        noStandbySince := None;
        return Degrade;
      }
      return Stay;
    }
  }

  // ---- When it gives up on standbys ----

  function Since(h: seq<Call>, timeout: nat): Option<nat> {
    if h == [] then None else StepTimer(Since(h[..|h| - 1], timeout), h[|h| - 1], timeout).since
  }

  /** The last of some calls returns `Degrade`. */
  predicate Degrades(h: seq<Call>, timeout: nat) {
    h != [] && StepTimer(Since(h[..|h| - 1], timeout), h[|h| - 1], timeout).fallback == Degrade
  }

  predicate DegradesAt(h: seq<Call>, i: nat, timeout: nat) {
    i < |h| && Degrades(h[..i + 1], timeout)
  }

  /** The call sees no standby where one is required. */
  predicate Counts(c: Call) {
    c.mode == Sync && !c.streaming && !c.degraded
  }

  predicate SawNoStandby(c: Call) {
    c.mode == Sync && !c.streaming
  }

  /** Since call `j` no call saw a standby, or another mode, and none fell back. */
  predicate Quiet(h: seq<Call>, timeout: nat, j: nat) {
    && j < |h| && Counts(h[j])
    && forall i | j <= i < |h| :: SawNoStandby(h[i]) && !DegradesAt(h, i, timeout)
  }

  predicate ClockRuns(h: seq<Call>) {
    forall i, j | 0 <= i < j < |h| :: h[i].now <= h[j].now
  }

  lemma QuietSnoc(h: seq<Call>, timeout: nat, j: nat)
    requires h != [] && j < |h| - 1
    ensures Quiet(h, timeout, j) <==>
              Quiet(h[..|h| - 1], timeout, j) && SawNoStandby(h[|h| - 1]) && !Degrades(h, timeout)
  {
    var m := |h| - 1;
    forall i | j <= i < m
      ensures h[..m][i] == h[i] && DegradesAt(h[..m], i, timeout) == DegradesAt(h, i, timeout)
    {
      assert h[..m][..i + 1] == h[..i + 1];
    }
    assert h[..m + 1] == h;
  }

  lemma WaitedSnoc(h: seq<Call>, timeout: nat, j: nat)
    requires h != [] && j < |h| - 1
    ensures WaitedFrom(h, timeout, j) <==>
              Quiet(h[..|h| - 1], timeout, j) && SawNoStandby(h[|h| - 1]) && h[j].now + timeout <= h[|h| - 1].now
  {
    var m := |h| - 1;
    forall i | j <= i < m
      ensures h[..m][i] == h[i] && DegradesAt(h[..m], i, timeout) == DegradesAt(h, i, timeout)
    {
      assert h[..m][..i + 1] == h[..i + 1];
    }
  }

  lemma QuietLast(h: seq<Call>, timeout: nat)
    requires h != []
    ensures Quiet(h, timeout, |h| - 1) <==> Counts(h[|h| - 1]) && !Degrades(h, timeout)
  {
    assert h[..|h| - 1 + 1] == h;
  }

  /** The time is that of the first call of the present quiet spell, or there is none. */
  ghost predicate IsSpell(h: seq<Call>, timeout: nat, since: Option<nat>) {
    match since
    case None => forall j: nat :: !Quiet(h, timeout, j)
    case Some(time) =>
      && (exists j: nat :: Quiet(h, timeout, j) && h[j].now == time)
      && (forall j: nat | Quiet(h, timeout, j) :: time <= h[j].now)
  }

  /** A call that sees a standby, or falls back, ends the spell. */
  lemma SpellEnds(h: seq<Call>, timeout: nat)
    requires h != [] && (!SawNoStandby(h[|h| - 1]) || Degrades(h, timeout))
    ensures IsSpell(h, timeout, None)
  {
    var m := |h| - 1;
    QuietLast(h, timeout);
    forall j: nat | j < m
      ensures !Quiet(h, timeout, j)
    {
      QuietSnoc(h, timeout, j);
    }
  }

  /** Any other call goes on with it. */
  lemma SpellGoesOn(h: seq<Call>, timeout: nat, time: nat)
    requires h != [] && SawNoStandby(h[|h| - 1]) && !Degrades(h, timeout) && ClockRuns(h)
    requires IsSpell(h[..|h| - 1], timeout, Some(time))
    ensures IsSpell(h, timeout, Some(time))
  {
    var m := |h| - 1;
    var first: nat :| Quiet(h[..m], timeout, first) && h[..m][first].now == time;
    QuietSnoc(h, timeout, first);
    forall j: nat | Quiet(h, timeout, j)
      ensures time <= h[j].now
    {
      if j < m {
        QuietSnoc(h, timeout, j);
        assert h[..m][j] == h[j];
      }
    }
  }

  /** One that counts begins it if there is none. */
  lemma SpellBegins(h: seq<Call>, timeout: nat)
    requires h != [] && SawNoStandby(h[|h| - 1]) && !Degrades(h, timeout)
    requires IsSpell(h[..|h| - 1], timeout, None)
    ensures IsSpell(h, timeout, if Counts(h[|h| - 1]) then Some(h[|h| - 1].now) else None)
  {
    var m := |h| - 1;
    QuietLast(h, timeout);
    forall j: nat | j < m
      ensures !Quiet(h, timeout, j)
    {
      QuietSnoc(h, timeout, j);
    }
  }

  /** The time kept is that of the first call of the present quiet spell. */
  lemma {:induction false} SinceIs(h: seq<Call>, timeout: nat)
    requires ClockRuns(h)
    ensures IsSpell(h, timeout, Since(h, timeout))
  {
    if h != [] {
      var m := |h| - 1;
      SinceIs(h[..m], timeout);
      if !SawNoStandby(h[m]) || Degrades(h, timeout) {
        SpellEnds(h, timeout);
      } else if Since(h[..m], timeout).Some? {
        SpellGoesOn(h, timeout, Since(h[..m], timeout).value);
      } else {
        SpellBegins(h, timeout);
      }
    }
  }

  /** Call `j` and those after it, up to the last, saw no standby and did not fall back, for at least the timeout. */
  predicate WaitedFrom(h: seq<Call>, timeout: nat, j: nat) {
    && j < |h| && Counts(h[j]) && h[j].now + timeout <= h[|h| - 1].now
    && (forall i | j <= i < |h| :: SawNoStandby(h[i]))
    && (forall i | j <= i < |h| - 1 :: !DegradesAt(h, i, timeout))
  }

  /** The timer falls back exactly when no call over at least the timeout saw a standby. */
  lemma FallsBackExactlyWhen(h: seq<Call>, timeout: nat)
    requires ClockRuns(h) && h != []
    ensures Degrades(h, timeout) <==> Counts(h[|h| - 1]) && exists j: nat :: WaitedFrom(h, timeout, j)
  {
    var m := |h| - 1;
    SinceIs(h[..m], timeout);
    forall j: nat | j < m
      ensures WaitedFrom(h, timeout, j) <==>
                Quiet(h[..m], timeout, j) && SawNoStandby(h[m]) && h[j].now + timeout <= h[m].now
    {
      WaitedSnoc(h, timeout, j);
    }
    if Degrades(h, timeout) {
      if Since(h[..m], timeout).Some? {
        var j: nat :| Quiet(h[..m], timeout, j) && h[..m][j].now == Since(h[..m], timeout).value;
        assert WaitedFrom(h, timeout, j);
      } else {
        assert WaitedFrom(h, timeout, m);
      }
    }
  }

  /** It restores exactly when `sync` has fallen back and a standby streams, and forgets the time whenever one does. */
  lemma RestoresExactlyWhen(h: seq<Call>, timeout: nat)
    requires h != []
    ensures var c := h[|h| - 1];
            && (StepTimer(Since(h[..|h| - 1], timeout), c, timeout).fallback == Restore
                <==> c.mode == Sync && c.degraded && c.streaming)
            && (c.streaming ==> Since(h, timeout).None?)
  {
  }

  // ---- A tick ----

  /** The flag, whether commits wait for a standby, and the timer. */
  datatype State = State(
    degraded: bool, waits: bool,
    reported: bool,            // whether commits were last reported to wait
    since: Option<nat>,
    lateOff: nat, lateOn: nat) // calls given up on that may still end waiting, or begin it

  /** How a call went. One that failed may have taken effect all the same. */
  datatype Outcome = Done | Failed(tookEffect: bool)

  /** What a tick meets: another setting to change, how each of its calls goes, and whether one that failed goes on. */
  datatype Tick = Tick(
    streaming: bool, now: nat, otherDiffers: bool,
    record: Outcome, apply: Outcome, applyGoesOn: bool, clear: Outcome)

  datatype Event =
    | Report              // a health check reads the setting
    | TickOf(tick: Tick)
    | Land(waits: bool)   // a call for the setting that was given up on takes effect

  function After(current: bool, value: bool, o: Outcome): bool {
    if o == Failed(false) then current else value
  }

  function TimerAt(s: State, t: Tick, timeout: nat): Stepped {
    StepTimer(s.since, Call(Sync, s.degraded, t.streaming, t.now), timeout)
  }

  /** A call for the setting is given up on and still under way. A call for another setting leaves this one out. */
  predicate GoesOn(reported: bool, desired: bool, t: Tick) {
    desired != reported && t.apply == Failed(false) && t.applyGoesOn
  }

  /** The state once the setting has been asked for. */
  function Applied(s: State, desired: bool, t: Tick): State {
    s.(waits := if desired != s.reported then After(s.waits, desired, t.apply) else s.waits,
       lateOff := if GoesOn(s.reported, desired, t) && !desired then s.lateOff + 1 else s.lateOff,
       lateOn := if GoesOn(s.reported, desired, t) && desired then s.lateOn + 1 else s.lateOn)
  }

  /** The states a tick passes through, in order. It ends in the last. */
  function Passes(s: State, t: Tick, timeout: nat): seq<State> {
    var stepped := TimerAt(s, t, timeout);
    var s0 := s.(since := stepped.since);
    var s1 := if stepped.fallback == Degrade then s0.(degraded := After(s0.degraded, true, t.record)) else s0;
    if stepped.fallback == Degrade && t.record != Done then [s1]
    else
      var desired := match stepped.fallback case Stay => !s.degraded case Degrade => false case Restore => true;
      var calls := desired != s.reported || t.otherDiffers;
      var s2 := if calls then Applied(s1, desired, t) else s1;
      if calls && t.apply != Done then [s1, s2]
      else if stepped.fallback == Restore then [s1, s2, s2.(degraded := After(s2.degraded, false, t.clear))]
      else [s1, s2]
  }

  function Ends(s: State, t: Tick, timeout: nat): State {
    Passes(s, t, timeout)[|Passes(s, t, timeout)| - 1]
  }

  function Landed(s: State, value: bool): State {
    if value && s.lateOn > 0 then s.(waits := true, lateOn := s.lateOn - 1)
    else if !value && s.lateOff > 0 then s.(waits := false, lateOff := s.lateOff - 1)
    else s
  }

  /** The tick restores, what it asked for was done, and the flag is cleared. */
  predicate ClearsFlag(s: State, t: Tick) {
    && s.degraded && t.streaming
    && (!s.reported || t.otherDiffers ==> t.apply == Done)
    && t.clear != Failed(false)
  }

  /** That is what a tick which finds the flag set and leaves it clear has done. */
  lemma FlagIsCleared(s: State, t: Tick, timeout: nat)
    ensures ClearsFlag(s, t) <==> s.degraded && !Ends(s, t, timeout).degraded
  {
  }

  /** A clear flag is set by a tick that finds no standby, the timeout over, and whose write of it takes effect. */
  lemma FlagIsSet(s: State, t: Tick, timeout: nat)
    requires !s.degraded
    ensures Ends(s, t, timeout).degraded
            <==> !t.streaming && (if s.since.Some? then s.since.value else t.now) + timeout <= t.now && t.record != Failed(false)
  {
  }

  /** No call that ends waiting may still take effect, and none has since the report. */
  predicate NothingLate(s: State) {
    s.lateOff == 0 && (s.reported ==> s.waits)
  }

  predicate SafeTick(s: State, t: Tick) {
    ClearsFlag(s, t) ==> NothingLate(s)
  }

  /** The states an event passes through. */
  function Moments(s: State, e: Event, timeout: nat): seq<State> {
    match e
    case Report => [s.(reported := s.waits)]
    case TickOf(t) => if SafeTick(s, t) then Passes(s, t, timeout) else []
    case Land(value) => [Landed(s, value)]
  }

  function Next(s: State, e: Event, timeout: nat): State {
    var ms := Moments(s, e, timeout);
    if ms == [] then s else ms[|ms| - 1]
  }

  function Run(s: State, es: seq<Event>, timeout: nat): State {
    if es == [] then s else Next(Run(s, es[..|es| - 1], timeout), es[|es| - 1], timeout)
  }

  /** Every state the primary is in over some events. */
  function AllStates(s: State, es: seq<Event>, timeout: nat): seq<State> {
    if es == [] then [s]
    else AllStates(s, es[..|es| - 1], timeout) + Moments(Run(s, es[..|es| - 1], timeout), es[|es| - 1], timeout)
  }

  /** While commits do not wait, the flag says so. */
  predicate Safe(s: State) {
    !s.waits ==> s.degraded
  }

  /** And a call that ends waiting is out only under the flag. */
  predicate Inv(s: State) {
    Safe(s) && (s.lateOff > 0 ==> s.degraded)
  }

  lemma StepKeepsInv(s: State, e: Event, timeout: nat)
    requires Inv(s)
    ensures Inv(Next(s, e, timeout)) && forall x <- Moments(s, e, timeout) :: Safe(x)
  {
    if e.TickOf? && SafeTick(s, e.tick) {
      TickKeepsInv(s, e.tick, timeout);
    }
  }

  lemma TickKeepsInv(s: State, t: Tick, timeout: nat)
    requires Inv(s) && SafeTick(s, t)
    ensures Inv(Ends(s, t, timeout)) && forall x <- Passes(s, t, timeout) :: Safe(x)
  {
  }

  lemma {:induction false} RunKeepsInv(s: State, es: seq<Event>, timeout: nat)
    requires Inv(s)
    ensures Inv(Run(s, es, timeout)) && forall x <- AllStates(s, es, timeout) :: Safe(x)
  {
    if es != [] {
      var m := |es| - 1;
      RunKeepsInv(s, es[..m], timeout);
      StepKeepsInv(Run(s, es[..m], timeout), es[m], timeout);
    }
  }

  /**
  At every moment of every run, whichever calls fail, how, and how late they take effect,
  commits go without a standby only under the flag.
  */
  lemma NeverUnprotected(s: State, es: seq<Event>, timeout: nat)
    requires Safe(s) && s.lateOff == s.lateOn == 0
    ensures forall x <- AllStates(s, es, timeout) :: Safe(x)
  {
    RunKeepsInv(s, es, timeout);
  }

  ghost predicate StaysSafe(s: State, timeout: nat) {
    forall more :: Safe(Run(s, more, timeout))
  }

  lemma SafeTickStaysSafe(s: State, t: Tick, timeout: nat)
    requires Inv(s) && SafeTick(s, t)
    ensures StaysSafe(Ends(s, t, timeout), timeout)
  {
    TickKeepsInv(s, t, timeout);
    forall more
      ensures Safe(Run(Ends(s, t, timeout), more, timeout))
    {
      RunKeepsInv(Ends(s, t, timeout), more, timeout);
    }
  }

  lemma UnsafeTick(s: State, t: Tick, timeout: nat)
    requires Inv(s) && !SafeTick(s, t)
    ensures !StaysSafe(Ends(s, t, timeout), timeout)
  {
    var ended := Ends(s, t, timeout);
    assert Run(ended, [Land(false)], timeout) == Next(Run(ended, [], timeout), Land(false), timeout);
    assert !Safe(Run(ended, [], timeout)) || !Safe(Run(ended, [Land(false)], timeout));
  }

  /** Ticks that meet the same standby, time and other setting, and differ in how their calls go. */
  predicate SameMoment(t: Tick, streaming: bool, now: nat, otherDiffers: bool) {
    t.streaming == streaming && t.now == now && t.otherDiffers == otherDiffers
  }

  /**
  Before a tick, and whatever becomes of its calls: it can never lead to commits without a
  standby or a flag exactly when it does not restore, or no call that ends waiting is still
  under way and none has taken effect since the report it goes by.
  */
  lemma TickIsSafeExactlyWhen(s: State, es: seq<Event>, timeout: nat, streaming: bool, now: nat, otherDiffers: bool)
    requires Safe(s) && s.lateOff == s.lateOn == 0
    ensures var s' := Run(s, es, timeout);
            (s'.degraded && streaming ==> NothingLate(s'))
            <==> forall t | SameMoment(t, streaming, now, otherDiffers) :: StaysSafe(Ends(s', t, timeout), timeout)
  {
    RunKeepsInv(s, es, timeout);
    var s' := Run(s, es, timeout);
    if s'.degraded && streaming ==> NothingLate(s') {
      forall t | SameMoment(t, streaming, now, otherDiffers)
        ensures StaysSafe(Ends(s', t, timeout), timeout)
      {
        SafeTickStaysSafe(s', t, timeout);
      }
    } else {
      var t := Tick(streaming, now, otherDiffers, Done, Done, false, Done);
      assert SameMoment(t, streaming, now, otherDiffers);
      UnsafeTick(s', t, timeout);
    }
  }

  /** A call to end waiting that times out, a standby that comes back, and the call that takes effect after all. */
  lemma LateCallCanUnprotect(timeout: nat) returns (s: State, first: Tick, second: Tick)
    ensures Safe(s) && s.lateOff == s.lateOn == 0
    ensures var fallen := Run(s, [TickOf(first)], timeout);
            fallen.degraded && !SafeTick(fallen, second) && !Safe(Landed(Ends(fallen, second, timeout), false))
  {
    s := State(false, true, true, Some(0), 0, 0);
    first := Tick(false, timeout, false, Done, Failed(false), true, Done);
    second := Tick(true, timeout, false, Done, Done, false, Done);
    assert Run(s, [TickOf(first)], timeout) == Next(Run(s, [], timeout), TickOf(first), timeout);
  }

  // ---- Commits wait when they should ----

  /** The report is of the present, and no call is under way. */
  predicate Settled(s: State) {
    s.reported == s.waits && s.lateOff == s.lateOn == 0
  }

  predicate CallsSucceed(t: Tick) {
    t.record == t.apply == t.clear == Done
  }

  /** With calls that succeed, a tick leaves commits waiting exactly when it leaves the flag clear. */
  lemma WaitsExactlyWithoutFlag(s: State, t: Tick, timeout: nat)
    requires Settled(s) && CallsSucceed(t)
    ensures var s' := Ends(s, t, timeout);
            && (s'.waits <==> !s'.degraded)
            && s'.lateOff == s'.lateOn == 0
            && (t.streaming ==> !s'.degraded)
            && (s.degraded && !t.streaming ==> s'.degraded)
  {
  }

  /** One call is left under way exactly when a tick asks for a change, gives up on it and it goes on: to end waiting, or to begin it. */
  lemma LateExactlyWhen(s: State, t: Tick, timeout: nat)
    requires s.lateOff == s.lateOn == 0
    ensures var over := (if s.since.Some? then s.since.value else t.now) + timeout <= t.now;
            var givenUp := t.apply == Failed(false) && t.applyGoesOn;
            var s' := Ends(s, t, timeout);
            && s'.lateOff == (if givenUp && s.reported && !t.streaming && (s.degraded || (over && t.record == Done)) then 1 else 0)
            && s'.lateOn == (if givenUp && !s.reported && (t.streaming || (!s.degraded && !over)) then 1 else 0)
  {
  }

  /** Such a call lands once at most: as often as one lands, so many fewer are under way. */
  lemma LandsOnce(s: State, value: bool, timeout: nat)
    ensures var s' := Next(s, Land(value), timeout);
            var before, after := if value then s.lateOn else s.lateOff, if value then s'.lateOn else s'.lateOff;
            if before == 0 then s' == s else after + 1 == before && s'.waits == value
  {
  }

  /** A fallback that was applied: commits do not wait, the report says so, and no call to begin waiting is under way. */
  predicate FallenBack(s: State) {
    s.degraded && !s.waits && !s.reported && s.lateOn == 0
  }

  predicate NoStandbyIn(es: seq<Event>) {
    forall e <- es :: e.TickOf? ==> !e.tick.streaming
  }

  /**
  A fallback lasts until a standby streams. Until then commits wait at no moment, inside ticks
  too, whatever becomes of the ticks' calls and whichever late calls land.
  */
  lemma {:induction false} FallbackLasts(s: State, es: seq<Event>, timeout: nat)
    requires FallenBack(s) && NoStandbyIn(es)
    ensures FallenBack(Run(s, es, timeout))
    ensures forall x <- AllStates(s, es, timeout) :: x.degraded && !x.waits
  {
    if es != [] {
      var m := |es| - 1;
      FallbackLasts(s, es[..m], timeout);
      assert es[m] in es;
    }
  }

  /** So a fallback in effect lasts exactly when no call to begin waiting is under way. */
  lemma FallbackLastsExactlyWhen(s: State, timeout: nat)
    requires s.degraded && !s.waits && !s.reported
    ensures s.lateOn == 0 <==> forall es | NoStandbyIn(es) :: !Run(s, es, timeout).waits
  {
    if s.lateOn == 0 {
      forall es | NoStandbyIn(es)
        ensures !Run(s, es, timeout).waits
      {
        FallbackLasts(s, es, timeout);
      }
    } else {
      assert NoStandbyIn([Land(true)]);
      assert Run(s, [Land(true)], timeout) == Next(Run(s, [], timeout), Land(true), timeout);
    }
  }

  /** The flag goes up before commits stop waiting, and comes down after they wait again. */
  lemma FlagFirstUpLastDown(s: State, t: Tick, timeout: nat)
    requires s.waits != Ends(s, t, timeout).waits && s.degraded != Ends(s, t, timeout).degraded
    ensures exists i, j | 0 <= i < j < |Passes(s, t, timeout)| ::
              var between, after := Passes(s, t, timeout)[i], Passes(s, t, timeout)[j];
              if s.waits then between.degraded && between.waits && after.degraded && !after.waits
              else between.degraded && between.waits && !after.degraded && after.waits
  {
    var ps := Passes(s, t, timeout);
    if s.waits {
      assert ps[0].degraded && ps[0].waits && ps[1].degraded && !ps[1].waits;
    } else {
      assert ps[1].degraded && ps[1].waits && !ps[2].degraded && ps[2].waits;
    }
  }

  /** Ticks, each after a health check. */
  function Checked(ts: seq<Tick>): seq<Event> {
    if ts == [] then [] else Checked(ts[..|ts| - 1]) + [Report, TickOf(ts[|ts| - 1])]
  }

  lemma RunChecked(s: State, ts: seq<Tick>, timeout: nat)
    requires ts != [] && !ts[|ts| - 1].streaming
    ensures var before := Run(s, Checked(ts[..|ts| - 1]), timeout);
            Run(s, Checked(ts), timeout) == Ends(before.(reported := before.waits), ts[|ts| - 1], timeout)
  {
    var es, t := Checked(ts[..|ts| - 1]), ts[|ts| - 1];
    assert Checked(ts)[..|es| + 1] == es + [Report];
    assert (es + [Report])[..|es|] == es;
  }

  predicate Lasting(s: State, start: nat) {
    && s.lateOff == s.lateOn == 0
    && if s.degraded then !s.waits else s.since.Some? && s.since.value <= start
  }

  lemma {:induction false} NoStandbyFallsBack(s: State, ts: seq<Tick>, timeout: nat)
    requires !s.degraded && s.lateOff == s.lateOn == 0 && (s.since.Some? && ts != [] ==> s.since.value <= ts[0].now)
    requires forall t <- ts :: !t.streaming && CallsSucceed(t)
    ensures ts != [] ==> Lasting(Run(s, Checked(ts), timeout), ts[0].now)
    ensures ts == [] ==> Run(s, Checked(ts), timeout) == s
    ensures ts != [] && ts[0].now + timeout <= ts[|ts| - 1].now ==> Run(s, Checked(ts), timeout).degraded
  {
    if ts != [] {
      var m := |ts| - 1;
      var before := Run(s, Checked(ts[..m]), timeout);
      NoStandbyFallsBack(s, ts[..m], timeout);
      assert ts[m] in ts;
      RunChecked(s, ts, timeout);
    }
  }

  /** A primary whose standbys stay away, and whose calls succeed, stops making commits wait once the timeout is over. */
  lemma CommitsGoOnWithoutStandbys(s: State, ts: seq<Tick>, timeout: nat)
    requires !s.degraded && s.since.None? && s.lateOff == s.lateOn == 0
    requires ts != [] && ts[0].now + timeout <= ts[|ts| - 1].now
    requires forall t <- ts :: !t.streaming && CallsSucceed(t)
    ensures var s' := Run(s, Checked(ts), timeout); s'.degraded && !s'.waits
  {
    NoStandbyFallsBack(s, ts, timeout);
  }

  // ---- The leader ----

  class Leader {
    var degraded: bool
    var waits: bool
    var reported: bool
    var timer: DegradeTimer
    ghost var lateOff: nat
    ghost var lateOn: nat
    ghost var passed: seq<State>

    ghost function Now(): State
      reads this, timer
    {
      State(degraded, waits, reported, timer.noStandbySince, lateOff, lateOn)
    }

    constructor ()
      ensures Now() == State(false, true, true, None, 0, 0) && passed == [Now()] && fresh(timer)
    {
      degraded, waits, reported, lateOff, lateOn := false, true, true, 0, 0;
      timer := new DegradeTimer();
      new;
      passed := [Now()];
    }

    /** The flag is written before commits stop waiting, and cleared after they wait again. */
    method ReconcileReplication(t: Tick, timeout: nat)
      modifies this`degraded, this`waits, this`lateOff, this`lateOn, this`passed, timer
      ensures passed == old(passed) + Passes(old(Now()), t, timeout)
      ensures Now() == Ends(old(Now()), t, timeout)
    {
      ghost var before := Now();
      var desired := !degraded;
      var fallback := timer.Step(Call(Sync, degraded, t.streaming, t.now), timeout);
      if fallback == Degrade {
        degraded := After(degraded, true, t.record);
        if t.record != Done {
          passed := passed + [Now()];
          return;
        }
        desired := false;
      } else if fallback == Restore {
        desired := true;
      }
      ghost var s1 := Now();
      var ok := Apply(desired, t);
      ghost var s2 := Now();
      if ok && fallback == Restore {
        degraded := After(degraded, false, t.clear);
        assert Passes(before, t, timeout) == [s1, s2, Now()];
        passed := passed + [s1, s2, Now()];
      } else {
        assert Passes(before, t, timeout) == [s1, s2];
        passed := passed + [s1, s2];
      }
    }

    /** Ask for the settings that differ from those reported. */
    method Apply(desired: bool, t: Tick) returns (ok: bool)
      modifies this`waits, this`lateOff, this`lateOn
      ensures Now() == if desired != reported || t.otherDiffers then Applied(old(Now()), desired, t) else old(Now())
      ensures ok <==> ((desired != reported || t.otherDiffers) ==> t.apply == Done)
    {
      if desired == reported && !t.otherDiffers {
        return true;
      }
      if GoesOn(reported, desired, t) {
        if desired {
          lateOn := lateOn + 1;
        } else {
          lateOff := lateOff + 1;
        }
      }
      if desired != reported {
        waits := After(waits, desired, t.apply);
      }
      return t.apply == Done;
    }
  }
}
