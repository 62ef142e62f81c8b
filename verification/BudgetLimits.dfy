/** The safe window is exactly the one proved: for every loss in restores and every delay of a
    call there is a run, within all timing assumptions, that fills any wider window. */
module BudgetLimits {
  import opened Prelude
  import opened Findings
  import opened SupervisorSteps
  import opened SupervisorRuns
  import opened RepairBudgets
  import opened CallTimes

  function SaveAt(t: real): Save { Saved(_ => t) }

  /** A recorder attached elsewhere than to the private monitor; everything else is well. */
  function Misrouted(called: real): TickView {
    TickView(Got(Auto), HEALTHY, Got(true), GuardView(Raised, Raised, SaveFailed, MuteView(Raised, Raised, Raised)),
             CaptureView(Got([1]), Got([Stream(Some(7), Some(2))])), SourceView(Raised, Raised),
             ReceiverView(Raised, Raised), Raised, ProbeView(Raised, Raised, Raised, Raised, Raised, Raised, Raised),
             RepairView(SaveAt(called), called, Got(())))
  }

  /** A tick at `now` that calls its repair at `called`. */
  function Move(now: real, called: real): Event { Round(now, Misrouted(called), called, SaveAt(called), called, None) }

  /** A process that is started, moves the recorder once, and is asked to stop during that tick:
      main then leaves its loop without the sleep. */
  function Start(now: real, wall: real): Event { Boot(0.0, now, wall, wall, SaveAt(wall), wall) }
  function Stop(at: real): Event { Shutdown(at, SaveAt(at), at) }

  function Life(events: seq<Event>, now: real, wall: real, tick: real, called: real): seq<Event> {
    events + [Start(now, wall)] + [Move(tick, called)] + [Stop(called)]
  }

  lemma ReachesFault(s: Sup, t: real, called: real)
    requires s.infrastructureFault.None? && s.nextInfrastructure <= t
    ensures var checked := s.(infrastructureFault := None, nextInfrastructure := t + PROBE_PERIOD);
      var o := Fault(checked, Finding(CaptureMisrouted, []), t, Misrouted(called).repair);
      Tick(s, t, Misrouted(called)) == Outcome(o.sup, [] + o.entries, o.raised)
  {
    HealthyIsHealthy();
    hide Infrastructure, Fault, Playback, SourceRoute, ReceiverRouteFault, Claim, Adopt, Hold, Owned;
  }

  lemma FaultMoves(s: Sup, t: real, called: real)
    requires |Recent(s.times.route, t)| < 3
    ensures var f := Finding(CaptureMisrouted, []);
      var o := Fault(s, f, t, Misrouted(called).repair);
      && !o.raised && |o.entries| == 4 && o.entries[0] == Saw(CaptureMisrouted)
      && o.entries[1].Spent? && o.entries[2].Wrote?
      && o.entries[3].Tried? && o.entries[3].finding == f && o.entries[3].at == t && o.entries[3].called == called
      && o.sup.times.route == Recent(s.times.route, t) + [t]
  {
    hide Persisted, Recent, Infrastructure;
  }

  lemma MovedOnce(s: Sup, t: real, called: real)
    requires s.infrastructureFault.None? && s.nextInfrastructure <= t && |Recent(s.times.route, t)| < 3
    ensures var o := Tick(s, t, Misrouted(called));
      && !o.raised && |o.entries| == 4 && !o.entries[0].Tried? && !o.entries[0].Began?
      && o.entries[1].Spent? && o.entries[2].Wrote?
      && IsRepair(o.entries[3], Route) && o.entries[3].at == t && o.entries[3].called == called
      && o.sup.times.route == Recent(s.times.route, t) + [t]
  {
    hide Tick, Fault, Recent;
    ReachesFault(s, t, called);
    FaultMoves(s.(infrastructureFault := None, nextInfrastructure := t + PROBE_PERIOD), t, called);
  }

  lemma PromptPush(log: seq<Entry>, e: Entry, delay: real)
    ensures Calls(log + [e], Route) == if IsRepair(e, Route) then Calls(log, Route) + [e.called] else Calls(log, Route)
    ensures LagOf(log + [e]) == LagOf(log) + if e.Began? then e.wall - e.now else 0.0
    ensures Prompt(log, delay) && (e.Tried? ==> e.called - e.at <= delay) ==> Prompt(log + [e], delay)
  {
    assert (log + [e])[..|log + [e]| - 1] == log;
  }

  lemma OneMore(events: seq<Event>, ev: Event)
    ensures Run(events + [ev]) == Step(Run(events), ev)
    ensures TimelyRun(events) && Timely(Run(events), ev) ==> TimelyRun(events + [ev])
  {
    assert (events + [ev])[..|events + [ev]| - 1] == events;
  }

  /** The route stamps a restart would find. */
  function RouteStamps(disk: Option<Disk>): seq<real> {
    match disk case None => [] case Some(d) => d.stamps.route
  }

  lemma OneMove(m: Machine, t: real, called: real, delay: real)
    requires m.alive.Some? && m.alive.value.infrastructureFault.None? && m.alive.value.nextInfrastructure <= t
    requires |Recent(m.alive.value.times.route, t)| < 3 && called - t <= delay && Prompt(m.log, delay)
    ensures var n := Step(m, Move(t, called));
      && n.alive.Some? && n.alive.value.times.route == Recent(m.alive.value.times.route, t) + [t]
      && n.clock == called && LagOf(n.log) == LagOf(m.log) && Prompt(n.log, delay)
      && Calls(n.log, Route) == Calls(m.log, Route) + [called]
  {
    hide Tick, Persisted, Recent, OnDisk, Calls, Prompt, LagOf;
    var s := m.alive.value;
    MovedOnce(s, t, called);
    var o := Tick(s, t, Misrouted(called));
    var w := Wrote(Persisted(o.sup, called, SaveAt(called).readings));
    PromptPush(m.log, o.entries[0], delay);
    PromptPush(m.log + [o.entries[0]], o.entries[1], delay);
    PromptPush(m.log + [o.entries[0]] + [o.entries[1]], o.entries[2], delay);
    PromptPush(m.log + [o.entries[0]] + [o.entries[1]] + [o.entries[2]], o.entries[3], delay);
    PromptPush(m.log + [o.entries[0]] + [o.entries[1]] + [o.entries[2]] + [o.entries[3]], w, delay);
    assert Step(m, Move(t, called)).log
        == m.log + [o.entries[0]] + [o.entries[1]] + [o.entries[2]] + [o.entries[3]] + [w];
  }

  lemma OneStart(m: Machine, now: real, wall: real, delay: real)
    requires m.alive.None? && Prompt(m.log, delay)
    ensures var n := Step(m, Start(now, wall));
      && n.alive.Some? && n.alive.value.infrastructureFault.None? && n.alive.value.nextInfrastructure == 0.0
      && n.alive.value.times.route == Restamped(RouteStamps(m.disk), now, wall)
      && n.clock == wall && n.due == wall && LagOf(n.log) == LagOf(m.log) + (wall - now) && Prompt(n.log, delay)
      && Calls(n.log, Route) == Calls(m.log, Route)
  {
    hide Persisted, OnDisk, Calls, Prompt, LagOf, Restamped, Latest;
    var s := Restored(0.0, m.disk, now, wall);
    var w := Wrote(Persisted(s, wall, SaveAt(wall).readings));
    PromptPush(m.log, Began(now, wall), delay);
    PromptPush(m.log + [Began(now, wall)], w, delay);
    assert Restamped([], now, wall) == [] by { EmptyRestamped(now, wall); }
    assert Step(m, Start(now, wall)).log == m.log + [Began(now, wall)] + [w];
  }

  lemma EmptyRestamped(now: real, wall: real)
    ensures Restamped([], now, wall) == []
  {}

  lemma OneStop(m: Machine, at: real, delay: real)
    requires m.alive.Some? && Prompt(m.log, delay)
    ensures var n := Step(m, Stop(at));
      && n.alive.None? && n.clock == at && RouteStamps(n.disk) == m.alive.value.times.route
      && LagOf(n.log) == LagOf(m.log) && Prompt(n.log, delay) && Calls(n.log, Route) == Calls(m.log, Route)
  {
    var s := m.alive.value;
    var w := Wrote(Persisted(s, at, SaveAt(at).readings));
    PromptPush(m.log, w, delay);
    OnDiskConcat(m.disk, [], [w]);
    assert [] + [w] == [w];
    StampsAt(s.times.route, at, SaveAt(at).readings, 1 + |s.times.transport|);
    assert w.disk.stamps.route == s.times.route;
  }

  /** One such process: its move is charged to what is left of the stamps it found. */
  lemma OneLife(events: seq<Event>, now: real, wall: real, tick: real, called: real, delay: real)
    requires TimelyRun(events) && Run(events).alive.None? && Prompt(Run(events).log, delay)
    requires 0.0 <= now && Run(events).clock <= now <= wall <= tick <= called <= tick + delay
    requires |Recent(Restamped(RouteStamps(Run(events).disk), now, wall), tick)| < 3
    ensures var m, all := Run(events), Life(events, now, wall, tick, called);
      var n := Run(all);
      && TimelyRun(all) && n.alive.None? && n.clock == called && Prompt(n.log, delay)
      && LagOf(n.log) == LagOf(m.log) + (wall - now) && Calls(n.log, Route) == Calls(m.log, Route) + [called]
      && RouteStamps(n.disk) == Recent(Restamped(RouteStamps(m.disk), now, wall), tick) + [tick]
  {
    hide Run, TimelyRun, Step, Prompt, Calls, LagOf, Restamped, Recent, RouteStamps;
    var m, a, b, c := Run(events), Start(now, wall), Move(tick, called), Stop(called);
    OneMore(events, a);
    OneStart(m, now, wall, delay);
    OneMore(events + [a], b);
    OneMove(Step(m, a), tick, called, delay);
    OneMore(events + [a] + [b], c);
    OneStop(Step(Step(m, a), b), called, delay);
  }

  // ----------------------------------------------------------------------- four lives

  lemma {:induction false} RestampedAtOnce(stamps: seq<real>, now: real)
    ensures |Restamped(stamps, now, now)| <= |stamps|
    ensures |Restamped(stamps, now, now)| == |stamps| ==> Restamped(stamps, now, now) == stamps
  {
    if stamps != [] { RestampedAtOnce(stamps[..|stamps| - 1], now); }
  }

  lemma {:induction false} RecentIsShort(times: seq<real>, now: real)
    ensures |Recent(times, now)| == |times| ==> Recent(times, now) == times
  {
    if times != [] { RecentIsShort(times[..|times| - 1], now); }
  }

  /** Three stamps of which the first is 600 seconds old once the restore has lost its time. */
  lemma FirstForgotten(stamps: seq<real>, now: real, wall: real, tick: real)
    requires |stamps| <= 3 && (|stamps| == 3 ==> stamps[0] == 0.0) && tick + (wall - now) >= BUDGET_SECONDS
    ensures |Recent(Restamped(stamps, now, wall), tick)| < 3
  {
    RestampedShort(stamps, now, wall);
    var times := Restamped(stamps, now, wall);
    if |times| == 3 {
      RestampedHead(stamps, now, wall);
      RecentIsShort(times, tick);
    }
  }

  lemma {:induction false} RestampedShort(stamps: seq<real>, now: real, wall: real)
    ensures |Restamped(stamps, now, wall)| <= |stamps|
  {
    if stamps != [] { RestampedShort(stamps[..|stamps| - 1], now, wall); }
  }

  lemma {:induction false} RestampedHead(stamps: seq<real>, now: real, wall: real)
    requires stamps != [] && |Restamped(stamps, now, wall)| == |stamps|
    ensures Restamped(stamps, now, wall)[0] == now - (wall - stamps[0])
  {
    var front := stamps[..|stamps| - 1];
    RestampedShort(front, now, wall);
    if front != [] { RestampedHead(front, now, wall); }
  }

  /** The first tick is slow, the last process restores slowly; `gap` passes between the others. */
  function OneMoved(slow: real): seq<Event> { Life([], 0.0, 0.0, 0.0, slow) }
  function TwoMoved(slow: real, gap: real): seq<Event> { QuickLived(OneMoved(slow), slow + gap) }
  function ThreeMoved(slow: real, gap: real): seq<Event> { QuickLived(TwoMoved(slow, gap), slow + 2.0 * gap) }
  function QuickLived(events: seq<Event>, t: real): seq<Event> { Life(events, t, t, t, t) }

  function Crowded(slow: real, lost: real, gap: real, last: real): seq<Event> {
    Life(ThreeMoved(slow, gap), slow + 2.0 * gap, slow + 2.0 * gap + lost, last, last)
  }

  lemma QuickLife(events: seq<Event>, t: real, delay: real)
    requires TimelyRun(events) && Run(events).alive.None? && Prompt(Run(events).log, delay) && 0.0 <= delay
    requires 0.0 <= t && Run(events).clock <= t
    requires |RouteStamps(Run(events).disk)| < 3
    ensures var m, all := Run(events), QuickLived(events, t);
      var n := Run(all);
      && TimelyRun(all) && n.alive.None? && n.clock == t && Prompt(n.log, delay)
      && LagOf(n.log) == LagOf(m.log) && Calls(n.log, Route) == Calls(m.log, Route) + [t]
      && |RouteStamps(n.disk)| <= |RouteStamps(m.disk)| + 1
      && (|RouteStamps(n.disk)| == |RouteStamps(m.disk)| + 1 && RouteStamps(m.disk) != [] ==>
            RouteStamps(n.disk)[0] == RouteStamps(m.disk)[0])
  {
    hide Run, TimelyRun, Life, Prompt, Calls, LagOf, RouteStamps;
    var stamps := RouteStamps(Run(events).disk);
    RestampedAtOnce(stamps, t);
    RecentIsShort(Restamped(stamps, t, t), t);
    OneLife(events, t, t, t, t, delay);
  }

  lemma OneMoves(slow: real)
    requires 0.0 <= slow
    ensures var n := Run(OneMoved(slow));
      && TimelyRun(OneMoved(slow)) && n.alive.None? && n.clock == slow && Prompt(n.log, slow) && LagOf(n.log) == 0.0
      && Calls(n.log, Route) == [slow] && RouteStamps(n.disk) == [0.0]
  {
    NothingYet(slow);
    hide Run, TimelyRun, Life, Prompt, Calls, LagOf, RouteStamps, Restamped, Recent;
    OneLife([], 0.0, 0.0, 0.0, slow, slow);
    assert [] + [slow] == [slow];
  }

  lemma ThreeMove(slow: real, gap: real)
    requires 0.0 <= slow && 0.0 <= gap
    ensures var n := Run(ThreeMoved(slow, gap));
      && TimelyRun(ThreeMoved(slow, gap)) && n.alive.None? && n.clock == slow + 2.0 * gap && Prompt(n.log, slow)
      && LagOf(n.log) == 0.0 && Calls(n.log, Route) == [slow, slow + gap, slow + 2.0 * gap]
      && |RouteStamps(n.disk)| <= 3 && (|RouteStamps(n.disk)| == 3 ==> RouteStamps(n.disk)[0] == 0.0)
  {
    hide Run, TimelyRun, QuickLived, OneMoved, Prompt, Calls, LagOf, RouteStamps;
    OneMoves(slow);
    QuickLife(OneMoved(slow), slow + gap, slow);
    QuickLife(TwoMoved(slow, gap), slow + 2.0 * gap, slow);
    assert [slow] + [slow + gap] + [slow + 2.0 * gap] == [slow, slow + gap, slow + 2.0 * gap];
  }

  lemma CrowdedRun(slow: real, lost: real, gap: real, last: real)
    requires 0.0 <= slow && 0.0 <= lost && 0.0 <= gap
    requires slow + 2.0 * gap + lost <= last && BUDGET_SECONDS <= last + lost
    ensures Allowed(Crowded(slow, lost, gap, last), lost, slow)
    ensures Calls(Run(Crowded(slow, lost, gap, last)).log, Route) == [slow, slow + gap, slow + 2.0 * gap, last]
  {
    hide Run, TimelyRun, ThreeMoved, Life, Prompt, Calls, LagOf, RouteStamps, Restamped, Recent;
    var three, t := ThreeMoved(slow, gap), slow + 2.0 * gap;
    ThreeMove(slow, gap);
    FirstForgotten(RouteStamps(Run(three).disk), t, t + lost, last);
    OneLife(three, t, t + lost, last, last, slow);
    assert [slow, slow + gap, t] + [last] == [slow, slow + gap, t, last];
  }

  lemma NothingYet(delay: real)
    ensures TimelyRun([]) && Prompt(Run([]).log, delay) && Calls(Run([]).log, Route) == []
    ensures Run([]).alive.None? && Run([]).clock == 0.0 && LagOf(Run([]).log) == 0.0
    ensures Recent(Restamped(RouteStamps(Run([]).disk), 0.0, 0.0), 0.0) == []
    ensures [] + [0.0] == [0.0]
  {}

  lemma FourCounted(a: real, b: real, c: real, d: real, width: real)
    requires a <= b <= c <= d < a + width
    ensures CountWindow([a, b, c, d], a, width) == 4
  {
    CountPush([a, b, c], d);
    CountPush([a, b], c);
    CountPush([a], b);
    CountPush([], a);
    assert [a, b, c, d] == [a, b, c] + [d] && [a, b, c] == [a, b] + [c] && [a, b] == [a] + [b] && [a] == [] + [a];
  }

  lemma RoomForFour(lag: real, delay: real, width: real) returns (slow: real, lost: real, gap: real, last: real)
    requires 0.0 <= lag && 0.0 <= delay && width > SafeWidth(lag, delay)
    ensures 0.0 <= slow <= delay && 0.0 <= lost <= lag && 0.0 < gap
    ensures slow + 2.0 * gap + lost <= last < slow + width && BUDGET_SECONDS <= last + lost
  {
    slow := if delay <= BUDGET_SECONDS then delay else BUDGET_SECONDS;
    lost := if lag <= (BUDGET_SECONDS - slow) / 2.0 then lag else (BUDGET_SECONDS - slow) / 2.0;
    gap := (width - lost) / 4.0;
    last := Max(BUDGET_SECONDS - lost, slow + 2.0 * gap + lost);
  }

  /** A wider window than the safe one is filled by some run. */
  lemma WiderIsUnsafe(lag: real, delay: real, width: real) returns (events: seq<Event>, from: real)
    requires 0.0 <= lag && 0.0 <= delay && width > SafeWidth(lag, delay)
    ensures Allowed(events, lag, delay) && CountWindow(Calls(Run(events).log, Route), from, width) > Limit(Route)
  {
    hide Crowded, Run, TimelyRun, Calls, LagOf, CountWindow, SafeWidth;
    var slow, lost, gap, last := RoomForFour(lag, delay, width);
    events, from := Crowded(slow, lost, gap, last), slow;
    CrowdedRun(slow, lost, gap, last);
    FourCounted(slow, slow + gap, slow + 2.0 * gap, last, width);
  }

  /** How wide a window holds no more repairs than its limit: at most 600 seconds less what the
      restores may lose and less what a call may be late, and no less than half of what is left
      of 600 after the latter. */
  lemma {:induction false} BudgetIsExact(lag: real, delay: real, width: real)
    requires 0.0 <= lag && 0.0 <= delay
    ensures width <= SafeWidth(lag, delay) <==>
      forall events, c, from ::
        Allowed(events, lag, delay) ==> CountWindow(Calls(Run(events).log, c), from, width) <= Limit(c)
  {
    hide Run, Allowed, Calls, CountWindow, SafeWidth;
    if width <= SafeWidth(lag, delay) {
      forall events, c, from | Allowed(events, lag, delay)
        ensures CountWindow(Calls(Run(events).log, c), from, width) <= Limit(c)
      {
        WindowBudget(events, c, from, width, lag, delay);
      }
    } else {
      var events, from := WiderIsUnsafe(lag, delay, width);
    }
  }
}
