/** Settling: how far apart repairs are, within one process and across restarts. */
module Settling {
  import opened Prelude
  import opened Findings
  import opened SupervisorSteps
  import opened SupervisorRuns
  import opened RepairBudgets
  import opened CallTimes

  /** What can shorten a 60 second settling time: both overwrite the deadline with 20 seconds. */
  predicate Shortens(e: Entry) { e.Changed? || IsRepair(e, Route) }

  /** Nothing strictly between i and j overwrote the deadline with a nearer one. */
  predicate Undisturbed(log: seq<Entry>, i: int, j: int) {
    forall k :: 0 <= k < |log| && i < k < j ==> !Shortens(log[k])
  }

  predicate SameProcess(log: seq<Entry>, i: int, j: int) {
    forall k :: 0 <= k < |log| && i < k < j ==> !log[k].Began?
  }

  /** The spacing promised between the tick of the repair at i and a tick at `at`, position j. */
  predicate Spaced(log: seq<Entry>, i: int, j: int, at: real)
    requires 0 <= i < j <= |log| && log[i].Tried?
  {
    var since := at - log[i].at + LagBetween(log, i, j);
    && (IsRepair(log[i], Transport) ==>
          since >= SETTLE_SECONDS && (Undisturbed(log, i, j) ==> since >= TRANSPORT_SETTLE_SECONDS))
    && (IsRepair(log[i], Pcm) && SameProcess(log, i, j) ==> since >= PCM_RESUME_SETTLE_SECONDS)
  }

  ghost predicate WellSpaced(log: seq<Entry>) {
    forall i, j :: 0 <= i < j < |log| && log[i].Tried? && log[j].Tried? && !IsRepair(log[j], Route) ==>
      Spaced(log, i, j, log[j].at)
  }

  predicate Past(log: seq<Entry>, now: real) {
    Forward(log) && forall i :: 0 <= i < |log| && log[i].Tried? ==> log[i].at <= now
  }

  /** The deadline in memory enforces the spacing from now on: nothing but a route repair
      happens before it. */
  ghost predicate Held(s: Sup, log: seq<Entry>, now: real) {
    && Past(log, now) && WellSpaced(log)
    && forall i :: 0 <= i < |log| && log[i].Tried? ==> Spaced(log, i, |log|, Max(s.settleUntil, now))
  }

  // --------------------------------------------------------------------------- logs

  lemma SpacedPush(log: seq<Entry>, e: Entry, now: real)
    requires WellSpaced(log) && Past(log, now)
    requires (e.Tried? ==> e.at == now) && (e.Began? ==> e.now <= e.wall)
    requires e.Tried? && !IsRepair(e, Route) ==>
      forall i :: 0 <= i < |log| && log[i].Tried? ==> Spaced(log, i, |log|, now)
    ensures WellSpaced(log + [e]) && Past(log + [e], now)
  {
    var all := log + [e];
    forall i, j | 0 <= i < j < |all| && all[i].Tried? && all[j].Tried? && !IsRepair(all[j], Route)
      ensures Spaced(all, i, j, all[j].at)
    {
      assert Spaced(log, i, j, all[j].at);
      SpacedSame(log, all, i, j, all[j].at);
    }
  }

  /** Spacing only looks at the log below j. */
  lemma SpacedSame(log: seq<Entry>, all: seq<Entry>, i: int, j: int, at: real)
    requires 0 <= i < j <= |log| <= |all| && log == all[..|log|] && log[i].Tried?
    ensures Spaced(log, i, j, at) <==> Spaced(all, i, j, at)
  {
    assert forall k :: 0 <= k < |log| ==> log[k] == all[k];
    assert all[..i] == log[..i] && all[..j] == log[..j];
    if !Undisturbed(all, i, j) {
      var k :| 0 <= k < |all| && i < k < j && Shortens(all[k]);
      assert Shortens(log[k]);
    }
    if !SameProcess(all, i, j) {
      var k :| 0 <= k < |all| && i < k < j && all[k].Began?;
      assert log[k].Began?;
    }
  }

  lemma SpacedPrefix(log: seq<Entry>, n: nat)
    requires WellSpaced(log) && n <= |log|
    ensures WellSpaced(log[..n])
  {
    forall i, j | 0 <= i < j < n && log[i].Tried? && log[j].Tried? && !IsRepair(log[j], Route)
      ensures Spaced(log[..n], i, j, log[j].at)
    {
      SpacedSame(log[..n], log, i, j, log[j].at);
    }
  }

  lemma HeldLater(s: Sup, log: seq<Entry>, now: real, later: real)
    requires Held(s, log, now) && now <= later
    ensures Held(s, log, later)
  {}

  // ------------------------------------------------------------------ parts of a tick

  /** How one effect may move the deadline. */
  predicate Moves(s: Sup, t: Sup, e: Entry, now: real) {
    match e
    case Changed(at) => t.settleUntil == now + SETTLE_SECONDS
    case Tried(f, _, at, _) =>
      && at == now && t.settleUntil == now + SettleAfter(ClassOf(f.kind))
      && (ClassOf(f.kind) != Route ==> now >= s.settleUntil)
    case Began(_, _) => false
    case _ => t.settleUntil == s.settleUntil
  }

  lemma HeldPush(s: Sup, t: Sup, log: seq<Entry>, e: Entry, now: real)
    requires Held(s, log, now) && Moves(s, t, e, now)
    ensures Held(t, log + [e], now)
  {
    var all := log + [e];
    SpacedPush(log, e, now);
    forall i | 0 <= i < |all| && all[i].Tried? ensures Spaced(all, i, |all|, Max(t.settleUntil, now)) {
      assert all[..|all|] == all && log[..|log|] == log;
      if i < |log| {
        assert Spaced(log, i, |log|, Max(s.settleUntil, now)) && log[i].at <= now;
        NarrowerRange(log, e, i);
        LagGrows(log, i, |log|);
      } else {
        assert all[..i] == log && LagBetween(all, i, |all|) == 0.0 by { LagPush(log, e); }
      }
    }
  }

  lemma NarrowerRange(log: seq<Entry>, e: Entry, i: int)
    requires 0 <= i < |log|
    ensures Undisturbed(log + [e], i, |log| + 1) <==> Undisturbed(log, i, |log|) && !Shortens(e)
    ensures SameProcess(log + [e], i, |log| + 1) <==> SameProcess(log, i, |log|) && !e.Began?
    ensures LagBetween(log + [e], i, |log| + 1) == LagBetween(log, i, |log|) + if e.Began? then e.wall - e.now else 0.0
  {
    var all := log + [e];
    assert all[|log|] == e && all[..i] == log[..i] && all[..|log| + 1] == all && log[..|log|] == log;
    assert forall k :: 0 <= k < |log| ==> all[k] == log[k];
    LagPush(log, e);
  }

  lemma {:induction false} HeldPlain(s: Sup, t: Sup, log: seq<Entry>, entries: seq<Entry>, now: real)
    requires Held(s, log, now) && t.settleUntil == s.settleUntil
    requires forall i :: 0 <= i < |entries| ==> !Shortens(entries[i]) && !entries[i].Tried? && !entries[i].Began?
    ensures Held(t, log + entries, now)
  {
    if entries == [] {
      assert log + entries == log;
    } else {
      var front, last := entries[..|entries| - 1], entries[|entries| - 1];
      HeldPlain(s, t, log, front, now);
      HeldPush(t, t, log + front, last, now);
      assert log + entries == (log + front) + [last];
    }
  }

  ghost predicate FaultMoves(s: Sup, now: real, t: Sup, e: seq<Entry>) {
    if |e| == 4 then (e[0].Saw? || e[0].Waited?) && e[1].Spent? && e[2].Wrote? && e[3].Tried? && Moves(s, t, e[3], now)
    else (forall i :: 0 <= i < |e| ==> e[i].Saw? || e[i].Waited? || e[i].Spent?) && t.settleUntil == s.settleUntil
  }

  lemma FaultDeadline(s: Sup, f: Finding, now: real, v: RepairView)
    ensures FaultMoves(s, now, Fault(s, f, now, v).sup, Fault(s, f, now, v).entries)
  {}

  lemma HeldAfterFault(s: Sup, now: real, t: Sup, e: seq<Entry>, log: seq<Entry>)
    requires Held(s, log, now) && FaultMoves(s, now, t, e)
    ensures Held(t, log + e, now)
  {
    if |e| == 4 {
      HeldPlain(s, s, log, e[..3], now);
      HeldPush(s, t, log + e[..3], e[3], now);
      assert log + e == log + e[..3] + [e[3]];
    } else {
      HeldPlain(s, t, log, e, now);
    }
  }

  lemma GuardDeadline(s: Sup, playing: bool, now: real, v: GuardView)
    ensures var g := Guard(s, playing, now, v);
      && g.sup.settleUntil == s.settleUntil
      && forall i :: 0 <= i < |g.entries| ==> !Shortens(g.entries[i]) && !g.entries[i].Tried? && !g.entries[i].Began?
  {}

  lemma HeldKept(now: real, v: TickView, at: real, save: Save)
    ensures TickKeeps((s, log) => Held(s, log, now), (s, log) => Held(s, log, now), now, v)
    ensures SaveKeeps((s, log) => Held(s, log, now), (s, log) => Held(s, log, now), at, save)
  {
    forall s, playing, log | Held(s, log, now)
      ensures Held(Guard(s, playing, now, v.guard).sup, log + Guard(s, playing, now, v.guard).entries, now)
    {
      var g := Guard(s, playing, now, v.guard);
      GuardDeadline(s, playing, now, v.guard);
      HeldPlain(s, g.sup, log, g.entries, now);
    }
    forall s, f, log | Held(s, log, now)
      ensures Held(Fault(s, f, now, v.repair).sup, log + Fault(s, f, now, v.repair).entries, now)
    {
      var o := Fault(s, f, now, v.repair);
      FaultDeadline(s, f, now, v.repair);
      HeldAfterFault(s, now, o.sup, o.entries, log);
    }
    forall s, log | Held(s, log, now) ensures Held(AfterChange(s, now), log + [Changed(now)], now) {
      HeldPush(s, AfterChange(s, now), log, Changed(now), now);
    }
    forall s, log | Held(s, log, now) ensures Held(AfterQuiet(s), log + [Quiet], now) {
      HeldPush(s, AfterQuiet(s), log, Quiet, now);
    }
    forall s, k, log | Held(s, log, now) ensures Held(AfterCalm(s, k), log + [Calm(k)], now) {
      HeldPush(s, AfterCalm(s, k), log, Calm(k), now);
    }
    forall s, log | Held(s, log, now) ensures Held(s, log + SavedEntry(s, at, save), now) {
      HeldPlain(s, s, log, SavedEntry(s, at, save), now);
    }
  }

  // -------------------------------------------------------------------------- restarts

  lemma {:induction false} LatestIsLatest(times: seq<real>, from: real)
    requires CountFrom(times, from) >= 1
    ensures times != [] && Latest(times) >= from
  {
    var front, last := times[..|times| - 1], times[|times| - 1];
    if last >= from {
      LatestBounds(times, |times| - 1);
    } else {
      LatestIsLatest(front, from);
      LatestOfFront(times);
    }
  }

  lemma {:induction false} LatestBounds(times: seq<real>, i: nat)
    requires i < |times|
    ensures Latest(times) >= times[i]
  {
    if |times| > 1 && i > 0 { LatestBounds(times[1..], i - 1); }
  }

  lemma {:induction false} LatestOfFront(times: seq<real>)
    requires |times| >= 2
    ensures Latest(times) >= Latest(times[..|times| - 1])
  {
    var front := times[..|times| - 1];
    if |times| > 2 {
      assert front[1..] == times[1..][..|times| - 2];
      LatestOfFront(times[1..]);
    }
  }

  lemma {:induction false} RepairIsCounted(log: seq<Entry>, i: nat)
    requires i < |log| && log[i].Tried?
    ensures CountFrom(Attempts(log, ClassOf(log[i].finding.kind)), log[i].at + LagOf(log[..i])) >= 1
  {
    var c := ClassOf(log[i].finding.kind);
    var front, last := log[..|log| - 1], log[|log| - 1];
    if IsRepair(last, c) { CountPush(Attempts(front, c), last.at + LagOf(front)); }
    if i < |log| - 1 {
      assert front[i] == log[i] && front[..i] == log[..i];
      RepairIsCounted(front, i);
    } else {
      assert log[..i] == front;
    }
  }

  /** A recent container or transport repair is in any list that covers the log, so a
      deadline taken from the list respects it. */
  lemma DeadlineRespects(s: Sup, log: seq<Entry>, i: nat, now: real, lag: real)
    requires Charged(s, log, now, now, lag)
    requires s.times.transport != [] ==> s.settleUntil == Latest(s.times.transport) + TRANSPORT_SETTLE_SECONDS
    requires i < |log| && IsRepair(log[i], Transport)
    ensures Max(s.settleUntil, now) >= log[i].at + TRANSPORT_SETTLE_SECONDS - LagBetween(log, i, |log|)
  {
    hide Safe, Attempts, AtMost;
    assert log[..|log|] == log;
    var charged := log[i].at + LagOf(log[..i]);
    if charged > now + lag - BUDGET_SECONDS {
      RepairIsCounted(log, i);
      assert Listed(s.times.At(Transport), Attempts(log, Transport), now, lag);
      LatestIsLatest(s.times.transport, charged - lag);
    }
  }

  lemma DeadlineFromTimes(zero: real, disk: Option<Disk>, now: real, wall: real)
    ensures var s := Restored(zero, disk, now, wall);
      s.times.transport != [] ==> s.settleUntil == Latest(s.times.transport) + TRANSPORT_SETTLE_SECONDS
  {}

  lemma HeldAtBoot(s: Sup, log: seq<Entry>, e: Entry, clock: real, now: real, lag: real)
    requires e.Began? && e.now <= e.wall && Charged(s, log + [e], now, now, lag)
    requires s.times.transport != [] ==> s.settleUntil == Latest(s.times.transport) + TRANSPORT_SETTLE_SECONDS
    requires WellSpaced(log) && Past(log, clock) && clock <= now
    ensures Held(s, log + [e], now)
  {
    hide Charged, WellSpaced;
    var all := log + [e];
    SpacedPush(log, e, now);
    forall i | 0 <= i < |all| && all[i].Tried? ensures Spaced(all, i, |all|, Max(s.settleUntil, now)) {
      assert !SameProcess(all, i, |all|) by { assert all[|log|].Began?; }
      if IsRepair(all[i], Transport) { DeadlineRespects(s, all, i, now, lag); }
    }
  }

  lemma BootHeld(m: Machine, ev: Event)
    requires ev.Boot? && m.alive.None? && Timely(m, ev) && m.disk == OnDisk(None, m.log)
    requires Safe(m.log, m.clock, m.clock, LagOf(m.log)) && 0.0 <= LagOf(m.log)
    requires WellSpaced(m.log) && Past(m.log, m.clock)
    ensures var n := Step(m, ev);
      && WellSpaced(n.log) && Past(n.log, n.clock)
      && (n.alive.Some? ==> Held(n.alive.value, n.log, n.clock))
  {
    hide Charged, Safe, Restored, WellSpaced, LagOf;
    var s, e := Restored(ev.zero, m.disk, ev.now, ev.wall), Began(ev.now, ev.wall);
    var tail := SavedEntry(s, ev.saveAt, ev.save);
    RestoredCharged(ev.zero, m.log, m.clock, LagOf(m.log), ev.now, ev.wall, ev.now);
    DeadlineFromTimes(ev.zero, OnDisk(None, m.log), ev.now, ev.wall);
    HeldAtBoot(s, m.log, e, m.clock, ev.now, LagOf(m.log) + (ev.wall - ev.now));
    HeldPlain(s, s, m.log + [e], tail, ev.now);
    assert m.log + ([e] + tail) == m.log + [e] + tail;
    HeldLater(s, m.log + [e] + tail, ev.now, ev.end);
  }

  lemma RoundHeld(m: Machine, ev: Event)
    requires ev.Round? && m.alive.Some? && Timely(m, ev)
    requires Held(m.alive.value, m.log, m.clock)
    ensures var n := Step(m, ev);
      && WellSpaced(n.log) && Past(n.log, n.clock)
      && (n.alive.Some? ==> Held(n.alive.value, n.log, n.clock))
  {
    var now := ev.now;
    HeldLater(m.alive.value, m.log, m.clock, now);
    HeldKept(now, ev.view, ev.saveAt, ev.save);
    forall log, n: nat | WellSpaced(log) && n <= |log| ensures WellSpaced(log[..n]) { SpacedPrefix(log, n); }
    RoundKept((s, log) => Held(s, log, now), (s, log) => Held(s, log, now),
              log => WellSpaced(log) && Past(log, now), m, ev);
    var n := Step(m, ev);
    if n.alive.Some? { HeldLater(n.alive.value, n.log, now, ev.end); }
  }

  lemma {:induction false} SettlingInvariant(events: seq<Event>)
    requires TimelyRun(events)
    ensures var m := Run(events);
      && WellSpaced(m.log) && Past(m.log, m.clock)
      && (m.alive.Some? ==> Held(m.alive.value, m.log, m.clock))
  {
    if events != [] {
      var before := events[..|events| - 1];
      var m, ev := Run(before), events[|events| - 1];
      SettlingInvariant(before);
      BudgetInvariant(before);
      DiskIsLastWritten(before);
      if ev.Boot? && m.alive.None? {
        BootHeld(m, ev);
      } else if ev.Round? && m.alive.Some? {
        RoundHeld(m, ev);
      } else if ev.Shutdown? && m.alive.Some? {
        HeldPlain(m.alive.value, m.alive.value, m.log, SavedEntry(m.alive.value, ev.now, ev.save), m.clock);
      }
    }
  }

  /** The spacing between the calls of two repairs: that of their ticks, less what the first
      call was late, and less what restores between lost. */
  predicate CallsSpaced(log: seq<Entry>, i: int, j: int)
    requires 0 <= i < j < |log| && log[i].Tried? && log[j].Tried?
  {
    var since := log[j].called - log[i].called;
    var late, lost := log[i].called - log[i].at, LagBetween(log, i, j);
    && (IsRepair(log[i], Transport) ==>
          && since >= SETTLE_SECONDS - late - lost
          && (Undisturbed(log, i, j) ==> since >= TRANSPORT_SETTLE_SECONDS - late - lost))
    && (IsRepair(log[i], Pcm) && SameProcess(log, i, j) ==> since >= PCM_RESUME_SETTLE_SECONDS - late)
  }

  predicate Follows(log: seq<Entry>, i: int, j: int) {
    0 <= i < j < |log| && log[i].Tried? && log[j].Tried? && !IsRepair(log[j], Route)
  }

  /** In every run: after a container or transport repair no other repair than of a route is
      called within 20 seconds, nor within 60 unless an output change or a route repair came
      between; after a PCM resume none within 10 in the same process. */
  lemma {:induction false} RepairsAreSpaced(events: seq<Event>)
    requires TimelyRun(events)
    ensures forall i, j :: Follows(Run(events).log, i, j) ==> CallsSpaced(Run(events).log, i, j)
  {
    hide Run, TimelyRun;
    var log := Run(events).log;
    SettlingInvariant(events);
    TimesAreOrdered(events);
    forall i, j | Follows(log, i, j) ensures CallsSpaced(log, i, j) {
      assert Spaced(log, i, j, log[j].at);
      if SameProcess(log, i, j) { NoLagWithin(log, i, j); }
    }
  }

  lemma {:induction false} NoLagWithin(log: seq<Entry>, i: int, j: int)
    requires 0 <= i < j <= |log| && SameProcess(log, i, j) && !log[i].Began?
    ensures LagBetween(log, i, j) == 0.0
  {
    assert log[..j] == log[..j - 1] + [log[j - 1]];
    LagPush(log[..j - 1], log[j - 1]);
    if j - 1 > i { NoLagWithin(log, i, j - 1); }
  }
}
