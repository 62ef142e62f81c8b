/** Exactly when a tick repairs: by what it finds, by what the log says of the streak and of the
    settling time, and by the room in the budget. */
module RepairConditions {
  import opened Prelude
  import opened Findings
  import opened SupervisorSteps
  import opened SupervisorRuns
  import opened RepairBudgets
  import opened Streaks

  // --------------------------------------------------------- the deadline, from the log

  /** Until when the log lets things settle: since the last repair or output change of the
      process, or else since the last container or transport repair that its restore kept. */
  function Deadline(log: seq<Entry>): Option<real> {
    if log == [] then None
    else
      var front, last := log[..|log| - 1], log[|log| - 1];
      match last
      case Changed(at) => Some(at + SETTLE_SECONDS)
      case Tried(f, _, at, _) => Some(at + SettleAfter(ClassOf(f.kind)))
      case Began(now, wall) =>
        var kept := Restamped(FileStamps(front, Transport), now, wall);
        if kept == [] then None else Some(Latest(kept) + TRANSPORT_SETTLE_SECONDS)
      case _ => Deadline(front)
  }

  /** The deadline in memory is the log's. */
  predicate Due(s: Sup, log: seq<Entry>) {
    s.settleUntil == match Deadline(log) case None => s.zero case Some(d) => d
  }

  predicate MovesDeadline(e: Entry) { e.Changed? || e.Tried? || e.Began? }

  lemma DeadlinePush(log: seq<Entry>, e: Entry)
    ensures !MovesDeadline(e) ==> Deadline(log + [e]) == Deadline(log)
    ensures e.Changed? ==> Deadline(log + [e]) == Some(e.at + SETTLE_SECONDS)
    ensures e.Tried? ==> Deadline(log + [e]) == Some(e.at + SettleAfter(ClassOf(e.finding.kind)))
    ensures e.Began? ==>
      var kept := Restamped(FileStamps(log, Transport), e.now, e.wall);
      Deadline(log + [e]) == if kept == [] then None else Some(Latest(kept) + TRANSPORT_SETTLE_SECONDS)
  {
    assert (log + [e])[..|log + [e]| - 1] == log;
  }

  lemma {:induction false} DeadlineKeep(log: seq<Entry>, entries: seq<Entry>)
    requires forall i :: 0 <= i < |entries| ==> !MovesDeadline(entries[i])
    ensures Deadline(log + entries) == Deadline(log)
  {
    if entries == [] {
      assert log + entries == log;
    } else {
      var front, last := entries[..|entries| - 1], entries[|entries| - 1];
      DeadlineKeep(log, front);
      DeadlinePush(log + front, last);
      assert log + entries == (log + front) + [last];
    }
  }

  lemma GuardDue(s: Sup, playing: bool, now: real, v: GuardView, log: seq<Entry>)
    requires Due(s, log)
    ensures Due(Guard(s, playing, now, v).sup, log + Guard(s, playing, now, v).entries)
  {
    GuardShape(s, playing, now, v);
    hide Guard, Deadline;
    DeadlineKeep(log, Guard(s, playing, now, v).entries);
  }

  lemma FaultDue(s: Sup, f: Finding, now: real, v: RepairView, log: seq<Entry>)
    requires Due(s, log)
    ensures Due(Fault(s, f, now, v).sup, log + Fault(s, f, now, v).entries)
  {
    var o := Fault(s, f, now, v);
    hide Deadline, Persisted, Recent;
    if |o.entries| == 4 {
      DeadlineKeep(log, o.entries[..3]);
      DeadlinePush(log + o.entries[..3], o.entries[3]);
      assert log + o.entries == log + o.entries[..3] + [o.entries[3]];
    } else {
      DeadlineKeep(log, o.entries);
    }
  }

  lemma DueKept(now: real, v: TickView, at: real, save: Save)
    ensures TickKeeps((s, log) => Due(s, log), (s, log) => Due(s, log), now, v)
    ensures SaveKeeps((s, log) => Due(s, log), (s, log) => Due(s, log), at, save)
  {
    hide Guard, Fault, Deadline, WellMade;
    forall s, playing, log | Due(s, log)
      ensures Due(Guard(s, playing, now, v.guard).sup, log + Guard(s, playing, now, v.guard).entries)
    {
      GuardDue(s, playing, now, v.guard, log);
    }
    forall s, f, log | Due(s, log)
      ensures Due(Fault(s, f, now, v.repair).sup, log + Fault(s, f, now, v.repair).entries)
    {
      FaultDue(s, f, now, v.repair, log);
    }
    forall s, log | Due(s, log) ensures Due(AfterChange(s, now), log + [Changed(now)]) {
      DeadlinePush(log, Changed(now));
    }
    forall s, log, e: Entry | Due(s, log) && (e.Quiet? || e.Calm?) ensures Deadline(log + [e]) == Deadline(log) {
      DeadlinePush(log, e);
    }
    forall s, log | Due(s, log) ensures Due(s, log + SavedEntry(s, at, save)) {
      DeadlineKeep(log, SavedEntry(s, at, save));
    }
  }

  lemma BootDue(m: Machine, ev: Event)
    requires ev.Boot? && m.alive.None? && m.disk == OnDisk(None, m.log)
    ensures Step(m, ev).alive.Some? ==> Due(Step(m, ev).alive.value, Step(m, ev).log)
  {
    var s, e := Restored(ev.zero, m.disk, ev.now, ev.wall), Began(ev.now, ev.wall);
    var tail := SavedEntry(s, ev.saveAt, ev.save);
    assert Restamped([], ev.now, ev.wall) == [];
    DeadlinePush(m.log, e);
    hide Deadline, Restamped, Latest, OnDisk;
    DeadlineKeep(m.log + [e], tail);
    assert m.log + ([e] + tail) == m.log + [e] + tail;
  }

  /** In every run the settling deadline of a live process is the one its log tells. */
  lemma {:induction false} DeadlineIsTheLogs(events: seq<Event>)
    ensures Run(events).alive.Some? ==> Due(Run(events).alive.value, Run(events).log)
  {
    if events != [] {
      var m, ev := Run(events[..|events| - 1]), events[|events| - 1];
      DeadlineIsTheLogs(events[..|events| - 1]);
      DiskIsLastWritten(events[..|events| - 1]);
      hide Due;
      if ev.Boot? && m.alive.None? {
        BootDue(m, ev);
      } else if ev.Round? && m.alive.Some? {
        DueKept(ev.now, ev.view, ev.saveAt, ev.save);
        RoundKept((s, log) => Due(s, log), (s, log) => Due(s, log), log => true, m, ev);
      }
    }
  }

  // ------------------------------------------------------------ what a tick comes upon

  /** The finding a tick hands to fault, if it comes upon one: of the infrastructure, of the
      routes, or of the probe. A fault of the infrastructure that is still remembered, an
      output change, or anything that cannot be observed ends the tick without one. */
  function Finds(s: Sup, now: real, v: TickView): Option<Finding> {
    if v.mode.Raised? then None
    else if now >= s.nextInfrastructure && Infrastructure(v.infrastructure) != Got(None) then
      if Infrastructure(v.infrastructure).Got? then Infrastructure(v.infrastructure).value else None
    else if now < s.nextInfrastructure && s.infrastructureFault.Some? then None
    else if v.playing.Raised? then None
    else if RouteFault(v).Some? then RouteFault(v)
    else if v.playing == Got(false) || v.mode.value in {Stopped, Manual} || v.reconcile != Got(false) then None
    else if now < s.settleUntil || now < s.nextProbe then None
    else
      match Probe(v.probe, v.mode.value)
      case Raised => None
      case Got(f) => if f.kind in {Verified, Idle, Unverified} then None else Some(f)
  }

  /** Whether the state has evidence, calm and budget for repairing the fault. */
  predicate Ready(s: Sup, f: Finding, now: real) {
    && !WaitOnly(f.kind)
    && (if s.previousFault == Some(f.kind) then s.consecutive + 1 else 1) >= Required(f.kind)
    && (now >= s.settleUntil || ClassOf(f.kind) == Route)
    && |Recent(s.times.At(ClassOf(f.kind)), now)| < Limit(ClassOf(f.kind))
  }

  /** The entries charge an attempt, and repair, exactly in the given cases. */
  ghost predicate TriesIf(entries: seq<Entry>, c: Class, now: real, charge: bool, tried: Entry, repair: bool) {
    (Spent(c, now) in entries <==> charge) && (tried in entries <==> repair)
  }

  lemma FaultTries(s: Sup, f: Finding, now: real, v: RepairView, g: Finding, stage: nat, c: Class)
    ensures TriesIf(Fault(s, f, now, v).entries, c, now, c == ClassOf(f.kind) && Ready(s, f, now),
                    Tried(g, stage, now, v.called), f == g && stage == s.stage && Ready(s, f, now) && v.save.Saved?)
  {
    hide Persisted, Recent;
  }

  /** The fault that the probe at the end of a tick comes upon. */
  function ProbeFinds(s: Sup, playing: bool, mode: Mode, now: real, v: TickView): Option<Finding> {
    if mode in {Stopped, Manual} || !playing || now < s.settleUntil || now < s.nextProbe then None
    else
      match Probe(v.probe, mode)
      case Raised => None
      case Got(f) => if f.kind in {Verified, Idle, Unverified} then None else Some(f)
  }

  ghost predicate TriesFound(entries: seq<Entry>, s: Sup, found: Option<Finding>, now: real, v: RepairView, f: Finding,
                             c: Class)
  {
    TriesIf(entries, c, now, found.Some? && c == ClassOf(found.value.kind) && Ready(s, found.value, now),
            Tried(f, s.stage, now, v.called), found == Some(f) && Ready(s, f, now) && v.save.Saved?)
  }

  lemma ProbingTries(s: Sup, playing: bool, mode: Mode, now: real, v: TickView, f: Finding, c: Class)
    ensures TriesFound(Probing(s, playing, mode, now, v).entries, s, ProbeFinds(s, playing, mode, now, v), now,
                       v.repair, f, c)
  {
    if Probe(v.probe, mode).Got? {
      var p := s.(nextProbe := now + PROBE_PERIOD);
      FaultTries(p, Probe(v.probe, mode).value, now, v.repair, f, s.stage, c);
    }
    hide Fault, Probe, Recent;
  }

  lemma PlaybackTries(s: Sup, playing: bool, mode: Mode, now: real, v: TickView, f: Finding, c: Class)
    ensures TriesFound(Playback(s, playing, mode, now, v).entries, s,
                       if v.reconcile == Got(false) then ProbeFinds(s, playing, mode, now, v) else None, now,
                       v.repair, f, c)
  {
    ProbingTries(s, playing, mode, now, v, f, c);
    ProbingTries(AfterChange(s, now), playing, mode, now, v, f, c);
    hide Probing, Probe, Ready;
    if v.reconcile.Got? && !v.reconcile.value { assert v.reconcile == Got(false); }
  }

  lemma GuardTriesNothing(s: Sup, playing: bool, now: real, v: GuardView)
    ensures var g := Guard(s, playing, now, v);
      && g.sup == s.(muted := g.sup.muted) && forall e :: e in g.entries ==> !e.Tried? && !e.Spent?
  {}

  /** What the guard does before changes nothing of it. */
  lemma TriesAfter(s: Sup, t: Sup, before: seq<Entry>, entries: seq<Entry>, found: Option<Finding>, now: real,
                   v: RepairView, f: Finding, c: Class)
    requires t == s.(muted := t.muted) && TriesFound(entries, t, found, now, v, f, c)
    requires forall e :: e in before ==> !e.Tried? && !e.Spent?
    ensures TriesFound(before + entries, s, found, now, v, f, c)
  {
    hide Recent;
  }

  lemma AfterGuardTries(s: Sup, playing: bool, mode: Mode, now: real, v: TickView, f: Finding, c: Class)
    requires v.mode == Got(mode) && v.playing == Got(playing)
    requires s.infrastructureFault.None? && now < s.nextInfrastructure
    ensures TriesFound(AfterGuard(s, playing, mode, now, v).entries, s, Finds(s, now, v), now, v.repair, f, c)
  {
    if RouteFault(v).Some? { FaultTries(s, RouteFault(v).value, now, v.repair, f, s.stage, c); }
    PlaybackTries(s, playing, mode, now, v, f, c);
    hide RouteFault, Fault, Playback, Probe, Recent, Ready, TriesIf;
    if !playing { assert v.playing == Got(false); }
    if v.reconcile.Got? && !v.reconcile.value { assert v.reconcile == Got(false); }
  }

  lemma ObservingTries(s: Sup, mode: Mode, now: real, v: TickView, f: Finding, c: Class)
    requires v.mode == Got(mode) && s.infrastructureFault.None? && now < s.nextInfrastructure
    ensures TriesFound(AfterInfrastructure(s, mode, now, v).entries, s, Finds(s, now, v), now, v.repair, f, c)
  {
    if v.playing.Got? {
      var playing := v.playing.value;
      var g := Guard(s, playing, now, v.guard);
      GuardTriesNothing(s, playing, now, v.guard);
      AfterGuardTries(g.sup, playing, mode, now, v, f, c);
      SameFinds(s, g.sup, now, v);
      hide Guard, AfterGuard, Finds, TriesFound;
      TriesAfter(s, g.sup, g.entries, AfterGuard(g.sup, playing, mode, now, v).entries, Finds(s, now, v), now, v.repair,
                 f, c);
    }
  }

  lemma SameFinds(s: Sup, t: Sup, now: real, v: TickView)
    requires t == s.(muted := t.muted)
    ensures Finds(t, now, v) == Finds(s, now, v)
  {
    hide RouteFault, Infrastructure, Probe;
  }

  lemma TickTries(s: Sup, now: real, v: TickView, f: Finding, c: Class)
    ensures TriesFound(Tick(s, now, v).entries, s, Finds(s, now, v), now, v.repair, f, c)
  {
    hide Infrastructure, AfterInfrastructure, Fault, RouteFault, Probe, Recent, TriesFound, TriesIf, Ready;
    if v.mode.Raised? {
      NothingTried(s, now, v.repair, f, c);
    } else if now >= s.nextInfrastructure {
      if Infrastructure(v.infrastructure).Raised? {
        NothingTried(s, now, v.repair, f, c);
      } else {
        var found := Infrastructure(v.infrastructure).value;
        var t := s.(infrastructureFault := found, nextInfrastructure := now + PROBE_PERIOD);
        CheckedTries(s, t, now, v, f, c);
      }
    } else if s.infrastructureFault.None? {
      ObservingTries(s, v.mode.value, now, v, f, c);
    } else {
      NothingTried(s, now, v.repair, f, c);
    }
  }

  lemma NothingTried(s: Sup, now: real, v: RepairView, f: Finding, c: Class)
    ensures TriesFound([], s, None, now, v, f, c)
  {}

  lemma CheckedTries(s: Sup, t: Sup, now: real, v: TickView, f: Finding, c: Class)
    requires v.mode.Got? && now >= s.nextInfrastructure && Infrastructure(v.infrastructure).Got?
    requires t == s.(infrastructureFault := Infrastructure(v.infrastructure).value,
                     nextInfrastructure := now + PROBE_PERIOD)
    ensures TriesFound(Tick(s, now, v).entries, s, Finds(s, now, v), now, v.repair, f, c)
  {
    hide Infrastructure, AfterInfrastructure, Fault, RouteFault, Probe, Recent, TriesFound;
    match Infrastructure(v.infrastructure).value {
      case Some(found) =>
        assert Tick(s, now, v) == Fault(t, found, now, v.repair);
        FaultTriesFound(t, found, now, v.repair, f, c);
        TriesAlike(s, t, Fault(t, found, now, v.repair).entries, Some(found), now, v.repair, f, c);
      case None =>
        ObservingTries(t, v.mode.value, now, v, f, c);
        assert Finds(t, now, v) == Finds(s, now, v);
        TriesAlike(s, t, Tick(s, now, v).entries, Finds(s, now, v), now, v.repair, f, c);
    }
  }

  lemma FaultTriesFound(s: Sup, found: Finding, now: real, v: RepairView, f: Finding, c: Class)
    ensures TriesFound(Fault(s, found, now, v).entries, s, Some(found), now, v, f, c)
  {
    hide Fault, Ready;
    FaultTries(s, found, now, v, f, s.stage, c);
  }

  lemma TriesAlike(s: Sup, t: Sup, entries: seq<Entry>, found: Option<Finding>, now: real, v: RepairView, f: Finding,
                   c: Class)
    requires TriesFound(entries, t, found, now, v, f, c)
    requires t == s.(infrastructureFault := t.infrastructureFault, nextInfrastructure := t.nextInfrastructure)
    ensures TriesFound(entries, s, found, now, v, f, c)
  {
    hide Recent;
  }

  /** In every run, exactly when a tick of a live process charges and repairs a fault: it comes
      upon it, its kind is no wait, the log ends with enough uninterrupted observations of it,
      the time to settle that the log tells is over (or a stream is astray) and the budget has
      room; and it repairs if the charge can be written. */
  lemma {:induction false} RepairedExactlyWhen(events: seq<Event>, now: real, v: TickView, f: Finding)
    requires Run(events).alive.Some? && Run(events).alive.value.zero <= now
    ensures var s, log := Run(events).alive.value, Run(events).log;
      var c, k := ClassOf(f.kind), f.kind;
      var due := && Finds(s, now, v) == Some(f) && !WaitOnly(k) && Trailing(log + [Saw(k)], k) >= Required(k)
                 && (c == Route || Deadline(log).None? || now >= Deadline(log).value)
                 && |Recent(s.times.At(c), now)| < Limit(c);
      && (Finds(s, now, v) == Some(f) ==> (Spent(c, now) in Tick(s, now, v).entries <==> due))
      && (Tried(f, s.stage, now, v.repair.called) in Tick(s, now, v).entries <==> due && v.repair.save.Saved?)
  {
    RepairsAreEvidenced(events);
    DeadlineIsTheLogs(events);
    hide Run, Tick, Finds, Deadline, Recent;
    var s, log := Run(events).alive.value, Run(events).log;
    TrailingPush(log, Saw(f.kind));
    TickTries(s, now, v, f, ClassOf(f.kind));
  }

  /** A tick that comes upon nothing charges nothing, and none charges for another class. */
  lemma ChargesOnlyWhatItFinds(s: Sup, now: real, v: TickView, c: Class)
    requires Spent(c, now) in Tick(s, now, v).entries
    ensures Finds(s, now, v).Some? && c == ClassOf(Finds(s, now, v).value.kind) && Ready(s, Finds(s, now, v).value, now)
  {
    hide Tick, Finds, Ready;
    TickTries(s, now, v, Finding(Idle, []), c);
  }

  // ----------------------------------------------------------------------------- pacing

  predicate Repairs(entries: seq<Entry>) { exists i :: 0 <= i < |entries| && entries[i].Tried? }

  lemma FaultLooksAgain(s: Sup, f: Finding, now: real, v: RepairView)
    ensures var o := Fault(s, f, now, v);
      && o.sup.zero == s.zero && o.sup.infrastructureFault == s.infrastructureFault
      && o.sup.nextInfrastructure == if Repairs(o.entries) then s.zero else s.nextInfrastructure
  {
    hide Persisted, Recent;
    var o := Fault(s, f, now, v);
    if |o.entries| == 4 { assert o.entries[3].Tried?; }
  }

  /** When the next probe is due after one that was: after 15 seconds; if it finds the player
      paused, after 5, or after 10 once a resume was tried. */
  lemma ProbesArePaced(s: Sup, playing: bool, mode: Mode, now: real, v: TickView)
    requires mode !in {Stopped, Manual} && playing && now >= s.settleUntil && now >= s.nextProbe
    ensures var o := Probing(s, playing, mode, now, v);
      var paused := Probe(v.probe, mode) == Got(Finding(PcmPaused, []));
      o.sup.nextProbe == now + if paused && Repairs(o.entries) then PCM_RESUME_SETTLE_SECONDS
                               else if paused && !o.raised then PCM_RESUME_PROBE_SECONDS else PROBE_PERIOD
  {
    var p := s.(nextProbe := now + PROBE_PERIOD);
    ProducersAreWellMade(v.infrastructure, v.capture, v.source, v.receiver, v.probe, mode);
    if Probe(v.probe, mode).Got? {
      FaultPaces(p, Probe(v.probe, mode).value, now, v.repair);
    }
    hide Fault, Probe;
  }

  lemma FaultPaces(s: Sup, f: Finding, now: real, v: RepairView)
    ensures var o := Fault(s, f, now, v);
      && o.sup.nextProbe == (if f.kind == PcmPaused && Repairs(o.entries) then now + PCM_RESUME_SETTLE_SECONDS
                             else s.nextProbe)
      && (!Repairs(o.entries) && !o.raised ==> o.sup.phase == Degraded)
      && (Repairs(o.entries) ==> o.sup.phase == Recovering)
  {
    hide Persisted, Recent;
    var o := Fault(s, f, now, v);
    if |o.entries| == 4 { assert o.entries[3].Tried?; }
  }

  lemma PlaybackLooksAgain(s: Sup, playing: bool, mode: Mode, now: real, v: TickView)
    ensures var o := Playback(s, playing, mode, now, v);
      && o.sup.zero == s.zero
      && o.sup.nextInfrastructure == if Repairs(o.entries) then s.zero else s.nextInfrastructure
  {
    var t := if v.reconcile == Got(true) then AfterChange(s, now) else s;
    if Probe(v.probe, mode).Got? {
      FaultLooksAgain(t.(nextProbe := now + PROBE_PERIOD), Probe(v.probe, mode).value, now, v.repair);
    }
    hide Fault, Probe;
  }

  /** The infrastructure is looked at once in 15 seconds, and again in the tick after a repair. */
  lemma InfrastructureIsLookedAtAgain(s: Sup, now: real, v: TickView)
    ensures var o := Tick(s, now, v);
      && o.sup.zero == s.zero
      && o.sup.nextInfrastructure ==
         if Repairs(o.entries) then s.zero
         else if v.mode.Got? && now >= s.nextInfrastructure && Infrastructure(v.infrastructure).Got? then
           now + PROBE_PERIOD
         else s.nextInfrastructure
  {
    var found := if Infrastructure(v.infrastructure).Got? then Infrastructure(v.infrastructure).value else None;
    var t := if now >= s.nextInfrastructure
             then s.(infrastructureFault := found, nextInfrastructure := now + PROBE_PERIOD) else s;
    if found.Some? { FaultLooksAgain(t, found.value, now, v.repair); }
    if v.playing.Got? && v.mode.Got? {
      var g := Guard(t, v.playing.value, now, v.guard);
      GuardTriesNothing(t, v.playing.value, now, v.guard);
      if RouteFault(v).Some? { FaultLooksAgain(g.sup, RouteFault(v).value, now, v.repair); }
      PlaybackLooksAgain(g.sup, v.playing.value, v.mode.value, now, v);
      RepairsAfter(g.entries, AfterGuard(g.sup, v.playing.value, v.mode.value, now, v).entries);
    }
    hide Infrastructure, RouteFault, Guard, Fault, Playback;
  }

  lemma RepairsAfter(before: seq<Entry>, entries: seq<Entry>)
    requires forall e :: e in before ==> !e.Tried?
    ensures Repairs(before + entries) <==> Repairs(entries)
  {
    var all := before + entries;
    if i :| 0 <= i < |all| && all[i].Tried? { assert i >= |before| && entries[i - |before|] == all[i]; }
    if i :| 0 <= i < |entries| && entries[i].Tried? { assert all[|before| + i] == entries[i]; }
  }
}
