/**
Self-fencing: an agent that hears no heartbeat for a while enters safe mode, and one
that stays there stops its Postgres. Times are seconds.
*/
module Fencing {
  import opened Common

  /** The shared fields of the tracker. */
  datatype Tracker = Tracker(lastSeen: real, inSafeMode: bool, since: Option<real>, detached: bool)

  /**
  Where the watchdog is in its iteration: before it, having read that the timeout passed, having
  read the flag as well, or with the flag set and the time not yet.
  */
  datatype Watch = Top | Overdue | Passed | Stored

  /** Where the fence loop is: waiting, asking whether Postgres runs, or about to stop it. It does not look again. */
  datatype Loop = Waiting | Asking | Stopping

  datatype World = World(
    timeout: real, fence: real,
    now: real, tracker: Tracker, watch: Watch, loop: Loop,
    running: bool,
    stoppedAt: Option<real>,     // Postgres was fenced and the agent left
    lastHeartbeat: real,
    lastCheck: real, lastLook: real)

  datatype Event =
    | Advance(seconds: real)
    | Touch
    | Detach
    | Check | Test | Store | Stamp // the watchdog's iteration
    | Look | Ask | Stop          // the fence loop's
    | SetRunning(running: bool)

  // ---- The tracker ----

  function Touched(t: Tracker, now: real): Tracker {
    t.(lastSeen := now, inSafeMode := false, since := if t.inSafeMode then None else t.since)
  }

  /** The time in safe mode, or nothing outside it or once detached. */
  function TimeInSafeMode(t: Tracker, now: real): Option<real> {
    if t.detached || t.since.None? then None else Some(now - t.since.value)
  }

  predicate Expired(t: Tracker, timeout: real, now: real) {
    now - t.lastSeen > timeout
  }

  // ---- The agent ----

  function TouchAnyTime(w: World): World {
    w.(tracker := Touched(w.tracker, w.now), lastHeartbeat := w.now)
  }

  /** The fence has passed in safe mode. */
  predicate Due(t: Tracker, fence: real, now: real) {
    var elapsed := TimeInSafeMode(t, now);
    elapsed.Some? && elapsed.value >= fence
  }

  /**
  The fence loop has decided nothing yet, and the watchdog is between iterations. Once the
  node is detached, the watchdog does not matter.
  */
  predicate SafeToTouch(w: World) {
    w.loop == Waiting && (w.watch == Top || w.tracker.detached)
  }

  function Next(w: World, e: Event): World {
    if w.stoppedAt.Some? then w
    else
      match e
      case Advance(dt) => if dt > 0.0 then w.(now := w.now + dt) else w
      case Touch => if SafeToTouch(w) then TouchAnyTime(w) else w
      case Detach => Detached(w)
      case Check =>
        if w.watch == Top then
          w.(watch := if Expired(w.tracker, w.timeout, w.now) then Overdue else Top, lastCheck := w.now)
        else w
      case Test => if w.watch == Overdue then w.(watch := if w.tracker.inSafeMode then Top else Passed) else w
      case Store => if w.watch == Passed then w.(watch := Stored, tracker := w.tracker.(inSafeMode := true)) else w
      case Stamp => if w.watch == Stored then w.(watch := Top, tracker := w.tracker.(since := Some(w.now))) else w
      case Look =>
        if w.loop == Waiting then
          w.(loop := if Due(w.tracker, w.fence, w.now) then Asking else Waiting, lastLook := w.now)
        else w
      case Ask => if w.loop == Asking then w.(loop := if w.running then Stopping else Waiting) else w
      case Stop => if w.loop == Stopping then w.(stoppedAt := Some(w.now)) else w
      case SetRunning(running) => w.(running := running)
  }

  function Detached(w: World): World {
    w.(tracker := w.tracker.(detached := true))
  }

  function Run(w: World, es: seq<Event>): World {
    if es == [] then w else Next(Run(w, es[..|es| - 1]), es[|es| - 1])
  }

  predicate Init(w: World) {
    && w.timeout >= 0.0 && w.fence > 0.0
    && w.tracker == Tracker(w.now, false, None, w.tracker.detached)
    && w.watch == Top && w.loop == Waiting && w.stoppedAt.None?
    && w.lastHeartbeat == w.lastCheck == w.lastLook == w.now
  }

  // ---- Never early ----

  /** Postgres was fenced no later than the timeout and the fence together after a heartbeat. */
  predicate StoppedEarly(w: World) {
    w.stoppedAt.Some? && w.stoppedAt.value - w.lastHeartbeat <= w.timeout + w.fence
  }

  /** What the tracker's fields say of the last heartbeat, for as long as anyone reads them. */
  predicate TrackerOk(w: World) {
    && (w.watch.Top? || w.watch.Overdue? ==> (w.tracker.inSafeMode <==> w.tracker.since.Some?))
    && (w.watch == Passed ==> !w.tracker.inSafeMode && w.tracker.since.None?)
    && (w.watch == Stored ==> w.tracker.inSafeMode && w.tracker.since.None?)
    && (w.watch != Top ==> w.now - w.lastHeartbeat > w.timeout)
    && (w.tracker.since.Some? ==> w.lastHeartbeat + w.timeout < w.tracker.since.value <= w.now)
  }

  predicate Inv(w: World) {
    && w.timeout >= 0.0 && w.fence > 0.0
    && w.tracker.lastSeen == w.lastHeartbeat <= w.now
    && (!w.tracker.detached ==> TrackerOk(w))
    && (w.loop != Waiting ==> w.now - w.lastHeartbeat > w.timeout + w.fence)
    && !StoppedEarly(w)
  }

  lemma StepKeepsInv(w: World, e: Event)
    requires Inv(w)
    ensures Inv(Next(w, e))
  {
  }

  lemma {:induction false} RunKeepsInv(w: World, es: seq<Event>)
    requires Inv(w)
    ensures Inv(Run(w, es))
  {
    if es != [] {
      RunKeepsInv(w, es[..|es| - 1]);
      StepKeepsInv(Run(w, es[..|es| - 1]), es[|es| - 1]);
    }
  }

  /** Postgres is stopped only after more than the timeout and the fence together without a heartbeat. */
  lemma NeverEarly(w: World, es: seq<Event>)
    requires Init(w)
    ensures !StoppedEarly(Run(w, es))
  {
    RunKeepsInv(w, es);
  }

  // ---- A heartbeat or a detach at a bad moment ----

  ghost predicate StaysOnTime(w: World) {
    forall more :: !StoppedEarly(Run(w, more))
  }

  ghost predicate NeverStops(w: World) {
    forall more :: Run(w, more).stoppedAt.None?
  }

  /** Some run leads from one world to the other. */
  ghost predicate Reaches(w: World, w': World) {
    exists es :: Run(w, es) == w'
  }

  lemma ReachesSelf(w: World)
    ensures Reaches(w, w)
  {
    assert Run(w, []) == w;
  }

  lemma ReachesOn(w: World, w': World, e: Event) returns (w'': World)
    requires Reaches(w, w')
    ensures w'' == Next(w', e) && Reaches(w, w'')
  {
    var es :| Run(w, es) == w';
    assert (es + [e])[..|es|] == es;
    assert Run(w, es + [e]) == Next(w', e);
    w'' := Next(w', e);
  }

  /** A decision of the fence loop is carried out whatever comes in between. */
  lemma PendingStops(w: World) returns (w': World)
    requires w.loop != Waiting && w.stoppedAt.None?
    ensures Reaches(w, w') && w'.stoppedAt == Some(w.now)
    ensures w'.lastHeartbeat == w.lastHeartbeat && w'.timeout == w.timeout && w'.fence == w.fence
  {
    ReachesSelf(w);
    w' := w;
    if w.loop == Asking {
      w' := ReachesOn(w, w', SetRunning(true));
      w' := ReachesOn(w, w', Ask);
    }
    w' := ReachesOn(w, w', Stop);
  }

  /** The fence loop comes round and finds the fence passed. */
  lemma FenceFires(w0: World, w: World) returns (w': World)
    requires Reaches(w0, w) && w.loop == Waiting && w.running && w.stoppedAt.None? && Due(w.tracker, w.fence, w.now)
    ensures Reaches(w0, w') && w'.stoppedAt == Some(w.now)
    ensures w'.lastHeartbeat == w.lastHeartbeat && w'.timeout == w.timeout && w'.fence == w.fence
  {
    w' := ReachesOn(w0, w, Look);
    w' := ReachesOn(w0, w', Ask);
    w' := ReachesOn(w0, w', Stop);
  }

  /** The watchdog stamps its time after the heartbeat, so the fence counts from there and not from the timeout. */
  lemma StampedTooLate(w: World) returns (w': World)
    requires w.watch != Top && (w.watch == Overdue ==> !w.tracker.inSafeMode)
    requires w.loop == Waiting && w.stoppedAt.None? && !w.tracker.detached && w.fence > 0.0
    ensures Reaches(w, w') && w'.stoppedAt == Some(w.now + w.fence)
    ensures w'.lastHeartbeat == w.lastHeartbeat && w'.timeout == w.timeout && w'.fence == w.fence
  {
    ReachesSelf(w);
    w' := ReachesOn(w, w, SetRunning(true));
    if w.watch == Overdue {
      w' := ReachesOn(w, w', Test);
    }
    if w.watch != Stored {
      w' := ReachesOn(w, w', Store);
    }
    w' := ReachesOn(w, w', Stamp);
    w' := ReachesOn(w, w', Advance(w.fence));
    w' := FenceFires(w, w');
  }

  /**
  A heartbeat can never be followed by an early stop exactly when it lands with no decision
  of the fence loop pending and the watchdog between iterations, or on a detached node.
  */
  lemma HeartbeatIsSafeExactlyWhen(w: World, es: seq<Event>)
    requires Init(w) && Run(w, es).stoppedAt.None?
    ensures StaysOnTime(TouchAnyTime(Run(w, es))) <==> SafeToTouch(Run(w, es))
  {
    RunKeepsInv(w, es);
    var touched := TouchAnyTime(Run(w, es));
    if touched.loop != Waiting {
      var stopped := PendingStops(touched);
      assert StoppedEarly(stopped);
    } else if touched.watch != Top && !touched.tracker.detached {
      var stopped := StampedTooLate(touched);
      assert StoppedEarly(stopped);
    } else {
      forall more
        ensures !StoppedEarly(Run(touched, more))
      {
        RunKeepsInv(touched, more);
      }
    }
  }

  /** Once the flag is cleared and the time stamped after it, later heartbeats leave the time: Postgres stops right after one. */
  lemma LaterHeartbeatsDoNotHelp(w: World) returns (w': World)
    requires w.watch == Stored && w.loop == Waiting && w.stoppedAt.None? && !w.tracker.detached && w.fence > 0.0
    ensures Reaches(TouchAnyTime(w), w') && w'.lastHeartbeat == w.now + w.fence && w'.stoppedAt == Some(w'.lastHeartbeat)
  {
    var w0 := TouchAnyTime(w);
    ReachesSelf(w0);
    w' := ReachesOn(w0, w0, SetRunning(true));
    w' := ReachesOn(w0, w', Stamp);
    w' := ReachesOn(w0, w', Advance(w.fence));
    w' := ReachesOn(w0, w', Touch);
    w' := FenceFires(w0, w');
  }

  lemma {:induction false} NeverOnceDetached(w: World, es: seq<Event>)
    requires w.tracker.detached && w.loop == Waiting && w.stoppedAt.None?
    ensures var w' := Run(w, es); w'.tracker.detached && w'.loop == Waiting && w'.stoppedAt.None?
  {
    if es != [] {
      NeverOnceDetached(w, es[..|es| - 1]);
    }
  }

  /** A detached node is never stopped exactly when no decision of the fence loop was pending as it detached. */
  lemma DetachIsFinalExactlyWhen(w: World)
    requires w.stoppedAt.None?
    ensures NeverStops(Next(w, Detach)) <==> w.loop == Waiting
  {
    if w.loop == Waiting {
      forall more
        ensures Run(Detached(w), more).stoppedAt.None?
      {
        NeverOnceDetached(Detached(w), more);
      }
    } else {
      var stopped := PendingStops(Detached(w));
    }
  }

  /** Both failures happen: a run after which a heartbeat, or a detach, comes too late for a decision taken. */
  lemma DecisionCanBePending(w: World) returns (w': World)
    requires Init(w) && !w.tracker.detached
    ensures Reaches(w, w') && w'.stoppedAt.None? && w'.watch == Top && w'.loop == Asking && !w'.tracker.detached
  {
    ReachesSelf(w);
    w' := ReachesOn(w, w, Advance(w.timeout + 1.0));
    w' := ReachesOn(w, w', Check);
    w' := ReachesOn(w, w', Test);
    w' := ReachesOn(w, w', Store);
    w' := ReachesOn(w, w', Stamp);
    w' := ReachesOn(w, w', Advance(w.fence));
    w' := ReachesOn(w, w', Look);
  }

  // ---- Never late ----

  /** Time passes only between iterations, each loop comes round every second, and Postgres keeps running in the cluster. */
  predicate Punctual(w: World, e: Event) {
    match e
    case Advance(dt) =>
      w.watch == Top && w.loop == Waiting && w.now + dt <= w.lastCheck + 1.0 && w.now + dt <= w.lastLook + 1.0
    case Detach => false
    case SetRunning(running) => running
    case _ => true
  }

  predicate AllPunctual(w: World, es: seq<Event>) {
    forall i | 0 <= i < |es| :: Punctual(Run(w, es[..i]), es[i])
  }

  predicate Timed(w: World) {
    && w.running && !w.tracker.detached
    && w.lastCheck <= w.now <= w.lastCheck + 1.0
    && w.lastLook <= w.now <= w.lastLook + 1.0
    && (w.watch == Top && !w.tracker.inSafeMode ==> w.lastCheck <= w.lastHeartbeat + w.timeout)
    && (w.watch == Stored || (w.watch != Top && !w.tracker.inSafeMode) ==> w.now <= w.lastHeartbeat + w.timeout + 1.0)
    && (w.tracker.since.Some? ==>
          && w.tracker.since.value <= w.lastHeartbeat + w.timeout + 1.0
          && (w.loop == Waiting ==> w.lastLook < w.tracker.since.value + w.fence))
    && (w.loop != Waiting ==> w.now < w.lastHeartbeat + w.timeout + w.fence + 2.0)
  }

  lemma StepKeepsTimed(w: World, e: Event)
    requires Inv(w) && Timed(w) && Punctual(w, e)
    ensures Timed(Next(w, e))
  {
  }

  lemma {:induction false} RunKeepsTimed(w: World, es: seq<Event>)
    requires Init(w) && w.running && !w.tracker.detached && AllPunctual(w, es)
    ensures Inv(Run(w, es)) && Timed(Run(w, es))
  {
    RunKeepsInv(w, es);
    if es != [] {
      var m := |es| - 1;
      forall i | 0 <= i < m
        ensures Punctual(Run(w, es[..m][..i]), es[..m][i])
      {
        assert es[..m][..i] == es[..i];
      }
      RunKeepsTimed(w, es[..m]);
      StepKeepsTimed(Run(w, es[..m]), es[m]);
    }
  }

  /** With both loops on time, Postgres is stopped less than two seconds after it may be. */
  lemma NeverLate(w: World, es: seq<Event>)
    requires Init(w) && w.running && !w.tracker.detached && AllPunctual(w, es)
    ensures var w' := Run(w, es);
            w'.stoppedAt.None? ==> w'.now < w'.lastHeartbeat + w'.timeout + w'.fence + 2.0
  {
    RunKeepsTimed(w, es);
  }

  // ---- What is left alone, and that time goes on ----

  /** An instance that does not run is never stopped, whatever heartbeats are missed. */
  lemma {:induction false} StoppedInstanceIsLeftAlone(w: World, es: seq<Event>)
    requires Init(w) && !w.running && forall i | 0 <= i < |es| :: es[i] != SetRunning(true)
    ensures var w' := Run(w, es); w'.stoppedAt.None? && w'.loop != Stopping && !w'.running
  {
    if es != [] {
      var m := |es| - 1;
      StoppedInstanceIsLeftAlone(w, es[..m]);
    }
  }

  /** A decision that is taken is carried through: the fence loop looks again only once it is back to waiting. */
  lemma DecisionIsCarriedThrough(w: World, e: Event)
    requires w.loop != Waiting && w.stoppedAt.None?
    ensures var w' := Next(w, e);
            || w'.loop == w.loop
            || (e.Ask? && w.loop == Asking && w'.loop == if w.running then Stopping else Waiting)
  {
  }

  lemma PunctualSnoc(w: World, es: seq<Event>, e: Event)
    requires AllPunctual(w, es) && Punctual(Run(w, es), e)
    ensures AllPunctual(w, es + [e]) && Run(w, es + [e]) == Next(Run(w, es), e)
  {
    assert (es + [e])[..|es|] == es;
    assert forall i | 0 <= i < |es| :: (es + [e])[..i] == es[..i];
  }

  /** Both loops can be on time for as long as one likes, with heartbeats that keep Postgres running. */
  lemma {:induction false} PunctualRunsGoOn(w: World, seconds: nat) returns (es: seq<Event>)
    requires Init(w) && w.running && !w.tracker.detached
    ensures AllPunctual(w, es) && Run(w, es).now == w.now + seconds as real
    ensures var w' := Run(w, es);
            && w'.stoppedAt.None? && w'.watch == Top && w'.loop == Waiting && !w'.tracker.inSafeMode
            && w'.tracker.since.None? && w'.timeout == w.timeout
  {
    es := [];
    if seconds > 0 {
      es := PunctualRunsGoOn(w, seconds - 1);
      PunctualSnoc(w, es, Touch);
      es := es + [Touch];
      PunctualSnoc(w, es, Check);
      es := es + [Check];
      PunctualSnoc(w, es, Look);
      es := es + [Look];
      PunctualSnoc(w, es, Advance(1.0));
      es := es + [Advance(1.0)];
    }
  }

  // ---- The tracker's methods ----

  class HeartbeatTracker {
    const timeout: real
    var lastSeen: real
    var inSafeMode: bool
    var safeModeSince: Option<real>
    var detached: bool

    function Fields(): Tracker
      reads this
    {
      Tracker(lastSeen, inSafeMode, safeModeSince, detached)
    }

    constructor (timeout: real, now: real)
      ensures this.timeout == timeout && Fields() == Tracker(now, false, None, false)
    {
      this.timeout, lastSeen, inSafeMode, safeModeSince, detached := timeout, now, false, None, false;
    }

    method Touch(now: real)
      modifies this
      ensures Fields() == Touched(old(Fields()), now)
    {
      lastSeen := now;
      var was := inSafeMode;
      inSafeMode := false;
      if was {
        safeModeSince := None;
      }
    }

    method Detach()
      modifies this`detached
      ensures Fields() == old(Fields()).(detached := true)
    {
      detached := true;
    }

    method ElapsedInSafeMode(now: real) returns (elapsed: Option<real>)
      ensures elapsed == TimeInSafeMode(Fields(), now)
    {
      if detached {
        return None;
      }
      elapsed := if safeModeSince.Some? then Some(now - safeModeSince.value) else None;
    }

    /** One iteration of the watchdog, with nothing in between. */
    method WatchOnce(now: real)
      modifies this`inSafeMode, this`safeModeSince
      ensures Fields() == if Expired(old(Fields()), timeout, now) && !old(inSafeMode)
                          then old(Fields()).(inSafeMode := true, since := Some(now)) else old(Fields())
    {
      var elapsed := now - lastSeen;
      if elapsed > timeout && !inSafeMode {
        inSafeMode := true;
        safeModeSince := Some(now);
      }
    }
  }

  /** An agent: its tracker, and where its watchdog and its fence loop are. */
  class Agent {
    const tracker: HeartbeatTracker
    const fence: real
    var now: real
    var watch: Watch
    var loop: Loop
    var running: bool
    var stoppedAt: Option<real>
    ghost var lastHeartbeat: real
    ghost var lastCheck: real
    ghost var lastLook: real

    ghost function State(): World
      reads this, tracker
    {
      World(tracker.timeout, fence, now, tracker.Fields(), watch, loop, running, stoppedAt, lastHeartbeat, lastCheck, lastLook)
    }

    constructor (timeout: real, fence: real, now: real, running: bool)
      requires timeout >= 0.0 && fence > 0.0
      ensures Init(State()) && fresh(tracker)
    {
      tracker := new HeartbeatTracker(timeout, now);
      this.fence, this.now, this.running := fence, now, running;
      watch, loop, stoppedAt := Top, Waiting, None;
      lastHeartbeat, lastCheck, lastLook := now, now, now;
    }

    method Heartbeat()
      requires stoppedAt.None?
      modifies tracker, this`lastHeartbeat
      ensures State() == TouchAnyTime(old(State()))
    {
      tracker.Touch(now);
      lastHeartbeat := now;
    }

    /** An iteration of the watchdog that nothing comes between is four events. */
    method Watchdog()
      requires stoppedAt.None? && watch == Top
      modifies tracker, this`lastCheck
      ensures State() == Next(Next(Next(Next(old(State()), Check), Test), Store), Stamp)
    {
      tracker.WatchOnce(now);
      lastCheck := now;
    }

    /** The fence loop reads the time in safe mode. */
    method LookAtFence()
      requires stoppedAt.None?
      modifies this`loop, this`lastLook
      ensures State() == Next(old(State()), Look)
    {
      if loop == Waiting {
        var elapsed := tracker.ElapsedInSafeMode(now);
        if elapsed.Some? && elapsed.value >= fence {
          loop := Asking;
        }
        lastLook := now;
      }
    }

    /** It asks whether Postgres runs. */
    method AskWhetherRunning()
      requires stoppedAt.None?
      modifies this`loop
      ensures State() == Next(old(State()), Ask)
    {
      if loop == Asking {
        loop := if running then Stopping else Waiting;
      }
    }

    /** It stops Postgres and leaves, without a second look at the tracker. */
    method StopPostgres()
      requires stoppedAt.None?
      modifies this`stoppedAt
      ensures State() == Next(old(State()), Stop)
    {
      if loop == Stopping {
        stoppedAt := Some(now);
      }
    }
  }
}
