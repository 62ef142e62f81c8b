/** Whole runs of the supervisor: any number of processes, each a restore followed by ticks,
    with a crash allowed after any effect and every write of the status file allowed to fail. */
module SupervisorRuns {
  import opened Prelude
  import opened Findings
  import opened SupervisorSteps

  datatype Event =
    /** main starts: restore (monotonic clock read before the wall clock), then persist. */
    | Boot(zero: real, now: real, wall: real, saveAt: real, save: Save, end: real)
    /** One round of main's loop: tick, then persist; the process may die after `crash` effects. */
    | Round(now: real, view: TickView, saveAt: real, save: Save, end: real, crash: Option<nat>)
    /** A requested stop: persist and exit. */
    | Shutdown(now: real, save: Save, end: real)

  /** Nothing happens before `clock`, and no tick before `due`: main sleeps after each round. */
  datatype Machine = Machine(alive: Option<Sup>, disk: Option<Disk>, clock: real, due: real, log: seq<Entry>)

  const INITIAL := Machine(None, None, 0.0, 0.0, [])

  /** The time that passed, over all restores so far, between their two clock readings. */
  function LagOf(log: seq<Entry>): real {
    if log == [] then 0.0
    else
      var last := log[|log| - 1];
      LagOf(log[..|log| - 1]) + if last.Began? then last.wall - last.now else 0.0
  }

  function SavedEntry(s: Sup, at: real, save: Save): seq<Entry> {
    match save
    case SaveFailed => []
    case Saved(readings) => [Wrote(Persisted(s, at, readings))]
  }

  /** The state main saves after a tick: one that raised is reported as degraded. */
  function AfterTick(o: Outcome): Sup {
    if o.raised then o.sup.(phase := Degraded) else o.sup
  }

  function RoundEntries(s: Sup, ev: Event): seq<Entry>
    requires ev.Round?
  {
    var o := Tick(s, ev.now, ev.view);
    o.entries + SavedEntry(AfterTick(o), ev.saveAt, ev.save)
  }

  function Min(a: nat, b: nat): nat { if a <= b then a else b }

  /** The effects of a round that happen: all of them, or those before the crash. */
  function RoundDone(s: Sup, ev: Event): seq<Entry>
    requires ev.Round?
  {
    var all := RoundEntries(s, ev);
    match ev.crash
    case None => all
    case Some(k) => all[..Min(k, |all|)]
  }

  /** The last status file written, if any. */
  function OnDisk(disk: Option<Disk>, entries: seq<Entry>): Option<Disk> {
    if entries == [] then disk
    else
      var last := entries[|entries| - 1];
      if last.Wrote? then Some(last.disk) else OnDisk(disk, entries[..|entries| - 1])
  }

  /** One event; an event that does not apply to the machine changes nothing. */
  function Step(m: Machine, ev: Event): Machine {
    match ev
    case Boot(zero, now, wall, saveAt, save, end) =>
      if m.alive.Some? then m
      else
        var s := Restored(zero, m.disk, now, wall);
        var done := [Began(now, wall)] + SavedEntry(s, saveAt, save);
        Machine(if save.Saved? then Some(s) else None, OnDisk(m.disk, done), end, end, m.log + done)
    case Round(now, view, saveAt, save, end, crash) =>
      if m.alive.None? then m
      else
        var s := m.alive.value;
        var done := RoundDone(s, ev);
        var survives := crash.None? && save.Saved?;
        Machine(if survives then Some(AfterTick(Tick(s, now, view))) else None,
                OnDisk(m.disk, done), end, end + PERIOD, m.log + done)
    case Shutdown(now, save, end) =>
      if m.alive.None? then m
      else
        var done := SavedEntry(m.alive.value, now, save);
        Machine(None, OnDisk(m.disk, done), end, end, m.log + done)
  }

  function Run(events: seq<Event>): Machine {
    if events == [] then INITIAL else Step(Run(events[..|events| - 1]), events[|events| - 1])
  }

  ghost predicate TimelySave(save: Save, low: real, high: real) {
    save.Saved? ==> forall i: nat :: low <= save.readings(i) <= high
  }

  /** Clock readings never decrease: each event starts after the previous one ended, a tick
      also after main's sleep, and reads its clocks in program order. A tick that is slow to
      observe calls Runtime.repair late. */
  ghost predicate Timely(m: Machine, ev: Event) {
    match ev
    case Boot(zero, now, wall, saveAt, save, end) =>
      && zero <= now && m.clock <= now <= wall <= saveAt <= end && TimelySave(save, saveAt, end)
    case Round(now, view, saveAt, save, end, _) =>
      && m.clock <= now && m.due <= now <= view.repair.called <= saveAt <= end
      && TimelySave(view.guard.save, now, end) && TimelySave(view.repair.save, now, view.repair.called)
      && TimelySave(save, saveAt, end)
    case Shutdown(now, save, end) =>
      m.clock <= now <= end && TimelySave(save, now, end)
  }

  ghost predicate TimelyRun(events: seq<Event>) {
    events != [] ==>
      TimelyRun(events[..|events| - 1]) && Timely(Run(events[..|events| - 1]), events[|events| - 1])
  }

  // ------------------------------------------------------------------- general facts

  lemma OnDiskConcat(disk: Option<Disk>, a: seq<Entry>, b: seq<Entry>)
    ensures OnDisk(disk, a + b) == OnDisk(OnDisk(disk, a), b)
  {
    if b == [] {
      assert a + b == a;
    } else {
      assert (a + b)[..|a + b| - 1] == a + b[..|b| - 1];
      OnDiskConcat(disk, a, b[..|b| - 1]);
    }
  }

  /** The file a restart will read is the last one the log shows being written. */
  lemma {:induction false} DiskIsLastWritten(events: seq<Event>)
    ensures Run(events).disk == OnDisk(None, Run(events).log)
  {
    if events != [] {
      var m, ev := Run(events[..|events| - 1]), events[|events| - 1];
      DiskIsLastWritten(events[..|events| - 1]);
      match ev
      case Boot(zero, now, wall, saveAt, save, end) =>
        OnDiskConcat(None, m.log, [Began(now, wall)] + SavedEntry(Restored(zero, m.disk, now, wall), saveAt, save));
      case Round(_, _, _, _, _, _) =>
        if m.alive.Some? { OnDiskConcat(None, m.log, RoundDone(m.alive.value, ev)); }
      case Shutdown(now, save, _) =>
        if m.alive.Some? { OnDiskConcat(None, m.log, SavedEntry(m.alive.value, now, save)); }
    }
  }

  // ------------------------------------------------------- one repair a round at most

  /** No process starts, and a repair can only come last. */
  predicate RepairsLast(entries: seq<Entry>, now: real, called: real) {
    forall k :: 0 <= k < |entries| ==>
      && !entries[k].Began?
      && (entries[k].Tried? ==> k == |entries| - 1 && entries[k].at == now && entries[k].called == called)
  }

  lemma FaultRepairsLast(s: Sup, f: Finding, now: real, v: RepairView)
    ensures RepairsLast(Fault(s, f, now, v).entries, now, v.called)
  {}

  lemma GuardRepairsNothing(s: Sup, playing: bool, now: real, v: GuardView)
    ensures forall k :: 0 <= k < |Guard(s, playing, now, v).entries| ==>
      !Guard(s, playing, now, v).entries[k].Began? && !Guard(s, playing, now, v).entries[k].Tried?
  {}

  lemma PlaybackRepairsLast(s: Sup, playing: bool, mode: Mode, now: real, v: TickView)
    ensures RepairsLast(Playback(s, playing, mode, now, v).entries, now, v.repair.called)
  {
    var t := if v.reconcile == Got(true) then AfterChange(s, now) else s;
    if Probe(v.probe, mode).Got? {
      FaultRepairsLast(t.(nextProbe := now + PROBE_PERIOD), Probe(v.probe, mode).value, now, v.repair);
    }
    hide Fault, Probe;
  }

  lemma TickRepairsLast(s: Sup, now: real, v: TickView)
    ensures RepairsLast(Tick(s, now, v).entries, now, v.repair.called)
  {
    var found := if Infrastructure(v.infrastructure).Got? then Infrastructure(v.infrastructure).value else None;
    var t := if now >= s.nextInfrastructure
             then s.(infrastructureFault := found, nextInfrastructure := now + PROBE_PERIOD) else s;
    if found.Some? { FaultRepairsLast(t, found.value, now, v.repair); }
    if v.playing.Got? && v.mode.Got? {
      var g := Guard(t, v.playing.value, now, v.guard);
      GuardRepairsNothing(t, v.playing.value, now, v.guard);
      if RouteFault(v).Some? { FaultRepairsLast(g.sup, RouteFault(v).value, now, v.repair); }
      PlaybackRepairsLast(g.sup, v.playing.value, v.mode.value, now, v);
    }
    hide Infrastructure, RouteFault, Guard, Fault, Playback;
  }

  /** A round: what precedes its repair and what follows it repairs nothing. */
  lemma RoundRepairsOnce(s: Sup, ev: Event)
    requires ev.Round?
    ensures var done := RoundDone(s, ev);
      && (forall k :: 0 <= k < |done| ==> !done[k].Began?)
      && (forall k :: 0 <= k < |done| && done[k].Tried? ==>
        done[k].at == ev.now && done[k].called == ev.view.repair.called)
      && (forall k, l :: 0 <= k < l < |done| ==> !(done[k].Tried? && done[l].Tried?))
  {
    TickRepairsLast(s, ev.now, ev.view);
    hide Tick;
  }

  predicate IsRepair(e: Entry, c: Class) { e.Tried? && ClassOf(e.finding.kind) == c }

  // ------------------------------------------------ proving facts about every run

  /** States that differ only in what no log fact rests on. */
  predicate Alike(s: Sup, t: Sup) {
    t == s.(phase := t.phase, nextInfrastructure := t.nextInfrastructure, nextProbe := t.nextProbe,
            infrastructureFault := t.infrastructureFault)
  }

  /** `pre` relates state and log when a tick starts, `inv` from the desktop guard on. */
  ghost predicate TickKeeps(pre: (Sup, seq<Entry>) -> bool, inv: (Sup, seq<Entry>) -> bool, now: real, v: TickView) {
    && (forall s, log :: pre(s, log) ==> inv(s, log))
    && (forall s, t, log :: pre(s, log) && Alike(s, t) ==> pre(t, log))
    && (forall s, t, log :: inv(s, log) && Alike(s, t) ==> inv(t, log))
    && (forall s, playing, log :: pre(s, log) ==>
          inv(Guard(s, playing, now, v.guard).sup, log + Guard(s, playing, now, v.guard).entries))
    && (forall s, f, log :: inv(s, log) && WellMade(f) ==>
          inv(Fault(s, f, now, v.repair).sup, log + Fault(s, f, now, v.repair).entries))
    && (forall s, log :: inv(s, log) ==> inv(AfterChange(s, now), log + [Changed(now)]))
    && (forall s, log :: inv(s, log) ==> inv(AfterQuiet(s), log + [Quiet]))
    && (forall s, k, log :: inv(s, log) && k in {Verified, Idle, Unverified} ==> inv(AfterCalm(s, k), log + [Calm(k)]))
  }

  /** The save that ends a round keeps `inv`, and restores `pre` when it succeeds. */
  ghost predicate SaveKeeps(pre: (Sup, seq<Entry>) -> bool, inv: (Sup, seq<Entry>) -> bool, at: real, save: Save) {
    forall s, log :: inv(s, log) ==>
      inv(s, log + SavedEntry(s, at, save)) && (save.Saved? ==> pre(s, log + SavedEntry(s, at, save)))
  }

  lemma ProbingKept(pre: (Sup, seq<Entry>) -> bool, inv: (Sup, seq<Entry>) -> bool, s: Sup, playing: bool, mode: Mode,
                    now: real, v: TickView, log: seq<Entry>)
    requires TickKeeps(pre, inv, now, v) && inv(s, log)
    ensures var o := Probing(s, playing, mode, now, v); inv(o.sup, log + o.entries)
  {
    var o := Probing(s, playing, mode, now, v);
    assert log + [] == log;
    var p := s.(nextProbe := now + PROBE_PERIOD);
    assert Alike(s, p) && inv(p, log);
    if o.entries == [] {
      assert Alike(s, o.sup);
    } else if o.entries[0] != Quiet {
      ProducersAreWellMade(v.infrastructure, v.capture, v.source, v.receiver, v.probe, mode);
      var f := Probe(v.probe, mode).value;
      if f.kind !in {Verified, Idle, Unverified} { assert Alike(Fault(p, f, now, v.repair).sup, o.sup); }
    }
  }

  lemma PlaybackKept(pre: (Sup, seq<Entry>) -> bool, inv: (Sup, seq<Entry>) -> bool, s: Sup, playing: bool,
                     mode: Mode, now: real, v: TickView, log: seq<Entry>)
    requires TickKeeps(pre, inv, now, v) && inv(s, log)
    ensures var o := Playback(s, playing, mode, now, v); inv(o.sup, log + o.entries)
  {
    assert log + [] == log;
    if v.reconcile == Got(true) {
      var o := Probing(AfterChange(s, now), playing, mode, now, v);
      ProbingKept(pre, inv, AfterChange(s, now), playing, mode, now, v, log + [Changed(now)]);
      assert log + ([Changed(now)] + o.entries) == log + [Changed(now)] + o.entries;
    } else if v.reconcile == Got(false) {
      ProbingKept(pre, inv, s, playing, mode, now, v, log);
    }
  }

  lemma AfterInfrastructureKept(pre: (Sup, seq<Entry>) -> bool, inv: (Sup, seq<Entry>) -> bool, s: Sup, mode: Mode,
                                now: real, v: TickView, log: seq<Entry>)
    requires TickKeeps(pre, inv, now, v) && pre(s, log)
    ensures var o := AfterInfrastructure(s, mode, now, v); inv(o.sup, log + o.entries)
  {
    hide Guard, Playback, Fault, WellMade;
    assert log + [] == log;
    if v.playing.Got? {
      var g := Guard(s, v.playing.value, now, v.guard);
      ProducersAreWellMade(v.infrastructure, v.capture, v.source, v.receiver, v.probe, mode);
      var o := AfterGuard(g.sup, v.playing.value, mode, now, v);
      if RouteFault(v).None? { PlaybackKept(pre, inv, g.sup, v.playing.value, mode, now, v, log + g.entries); }
      assert log + (g.entries + o.entries) == log + g.entries + o.entries;
    }
  }

  /** A relation kept by every part of a tick is kept by the tick. */
  lemma TickKept(pre: (Sup, seq<Entry>) -> bool, inv: (Sup, seq<Entry>) -> bool, s: Sup, now: real, v: TickView,
                 log: seq<Entry>)
    requires TickKeeps(pre, inv, now, v) && pre(s, log)
    ensures var o := Tick(s, now, v); inv(o.sup, log + o.entries)
  {
    assert log + [] == log;
    if v.mode.Got? {
      if now >= s.nextInfrastructure {
        if Infrastructure(v.infrastructure).Got? {
          var found := Infrastructure(v.infrastructure).value;
          var checked := s.(infrastructureFault := found, nextInfrastructure := now + PROBE_PERIOD);
          assert Alike(s, checked);
          ProducersAreWellMade(v.infrastructure, v.capture, v.source, v.receiver, v.probe, v.mode.value);
          if found.None? { AfterInfrastructureKept(pre, inv, checked, v.mode.value, now, v, log); }
        }
      } else if s.infrastructureFault.None? {
        AfterInfrastructureKept(pre, inv, s, v.mode.value, now, v, log);
      }
    }
  }

  /** The same for a round cut short anywhere: what survives keeps the relation, and any
      prefix-closed consequence of it holds of the effects that happened. */
  lemma RoundKept(pre: (Sup, seq<Entry>) -> bool, inv: (Sup, seq<Entry>) -> bool, good: seq<Entry> -> bool,
                  m: Machine, ev: Event)
    requires ev.Round? && m.alive.Some? && pre(m.alive.value, m.log)
    requires TickKeeps(pre, inv, ev.now, ev.view) && SaveKeeps(pre, inv, ev.saveAt, ev.save)
    requires forall s, log :: inv(s, log) ==> good(log)
    requires forall log, n: nat :: good(log) && n <= |log| ==> good(log[..n])
    ensures Step(m, ev).alive.Some? ==> pre(Step(m, ev).alive.value, Step(m, ev).log)
    ensures good(Step(m, ev).log)
  {
    var s := m.alive.value;
    var o := Tick(s, ev.now, ev.view);
    TickKept(pre, inv, s, ev.now, ev.view, m.log);
    var t := AfterTick(o);
    assert Alike(o.sup, t);
    var tail := SavedEntry(t, ev.saveAt, ev.save);
    var all := RoundEntries(s, ev);
    assert m.log + all == m.log + o.entries + tail;
    assert inv(t, m.log + all);
    var done := RoundDone(s, ev);
    assert (m.log + all)[..|m.log| + |done|] == m.log + done;
    assert ev.crash.None? ==> done == all;
  }
}
