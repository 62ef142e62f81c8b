/** The supervisor object itself: fields updated step by step, as the program does, each
    method proved to take the step that the whole-run theorems are about. */
module SupervisorObject {
  import opened Prelude
  import opened Findings
  import opened SupervisorSteps
  import opened SupervisorRuns

  class Supervisor {
    const zero: real
    var phase: Phase
    var nextInfrastructure: real
    var nextProbe: real
    var settleUntil: real
    var previousFault: Option<Kind>
    var consecutive: nat
    var stage: nat
    var repairTimes: seq<real>
    var routeRepairTimes: seq<real>
    var pcmResumeTimes: seq<real>
    var mutedDesktopStream: Option<int>
    var infrastructureFault: Option<Finding>

    /** The status file and the effects so far: the world outside the process. */
    var file: Option<Disk>
    var log: seq<Entry>

    function Abs(): Sup
      reads this
    {
      Sup(zero, phase, nextInfrastructure, nextProbe, settleUntil, previousFault, consecutive, stage,
          Budgets(repairTimes, routeRepairTimes, pcmResumeTimes), mutedDesktopStream, infrastructureFault)
    }

    constructor (zero: real, file: Option<Disk>)
      ensures Abs() == Fresh(zero) && this.file == file && log == []
    {
      this.zero := zero;
      phase := Starting;
      nextInfrastructure, nextProbe, settleUntil := zero, zero, zero;
      previousFault, consecutive, stage := None, 0, 0;
      repairTimes, routeRepairTimes, pcmResumeTimes := [], [], [];
      mutedDesktopStream, infrastructureFault := None, None;
      this.file := file;
      log := [];
    }

    method Restore(now: real, wall: real)
      requires Abs() == Fresh(zero)
      modifies this
      ensures Abs() == Restored(zero, old(file), now, wall)
      ensures file == old(file) && log == old(log) + [Began(now, wall)]
    {
      hide Restamped, Latest;
      log := log + [Began(now, wall)];
      if file.None? { return; }
      var data := file.value;
      repairTimes := Restamped(data.stamps.transport, now, wall);
      routeRepairTimes := Restamped(data.stamps.route, now, wall);
      pcmResumeTimes := Restamped(data.stamps.pcm, now, wall);
      if repairTimes != [] {
        settleUntil := Latest(repairTimes) + TRANSPORT_SETTLE_SECONDS;
        nextProbe := settleUntil;
      }
      mutedDesktopStream := data.muted;
    }

    method Persist(now: real, save: Save) returns (r: Answer<()>)
      modifies this`file, this`log
      ensures Abs() == old(Abs()) && r.Got? == save.Saved?
      ensures log == old(log) + SavedEntry(old(Abs()), now, save)
      ensures file == OnDisk(old(file), SavedEntry(old(Abs()), now, save))
    {
      if save.SaveFailed? { return Raised; }
      var data := Persisted(Abs(), now, save.readings);
      file := Some(data);
      log := log + [Wrote(data)];
      return Got(());
    }

    method SetDesktopMute(index: int, mute: bool, v: MuteView) returns (r: Answer<bool>)
      modifies this`log
      ensures r == SetMute(index, mute, v) && log == old(log) + [MuteEntry(index, mute, v)]
    {
      r := SetMute(index, mute, v);
      log := log + [MuteEntry(index, mute, v)];
    }

    method HoldStream(ownedMute: bool, conflict: bool, v: GuardView)
      requires mutedDesktopStream.Some?
      modifies this`mutedDesktopStream, this`log
      ensures var g := Hold(old(Abs()), ownedMute, conflict, v);
        Abs() == g.sup && log == old(log) + g.entries && OnDisk(old(file), g.entries) == file
    {
      if conflict {
        if !ownedMute { var _ := SetDesktopMute(mutedDesktopStream.value, true, v.mute); }
      } else {
        var restored := SetDesktopMute(mutedDesktopStream.value, false, v.mute);
        if restored == Got(true) { mutedDesktopStream := None; }
      }
    }

    method ClaimSole(streams: seq<Desktop>, conflict: bool, now: real, v: GuardView)
      requires mutedDesktopStream.None?
      modifies this`mutedDesktopStream, this`log, this`file
      ensures var g := Claim(old(Abs()), streams, conflict, now, v);
        Abs() == g.sup && log == old(log) + g.entries && file == OnDisk(old(file), g.entries)
    {
      hide OnDisk, Persisted, SetMute, Issues;
      DiskAfter(file, [], Quiet);
      if !conflict || |streams| != 1 || streams[0].mute { return; }
      var index := streams[0].index;
      mutedDesktopStream := Some(index);
      var saved := Persist(now, v.save);
      if saved.Raised? { return; }
      DiskAfter(old(file), SavedEntry(Abs(), now, v.save), MuteEntry(index, true, v.mute));
      var _ := SetDesktopMute(index, true, v.mute);
    }

    /** The claimed stream is gone and a sole muted one has taken its place. */
    method AdoptSole(replacement: Desktop, conflict: bool, now: real, v: GuardView)
      requires mutedDesktopStream.Some?
      modifies this`mutedDesktopStream, this`log, this`file
      ensures var g := Adopt(old(Abs()), old(mutedDesktopStream).value, replacement, conflict, now, v);
        Abs() == g.sup && log == old(log) + g.entries && file == OnDisk(old(file), g.entries)
    {
      hide OnDisk, Persisted, Hold;
      ghost var moved := Moved(mutedDesktopStream.value, replacement.index);
      DiskAfter(file, [], moved);
      log := log + [Moved(mutedDesktopStream.value, replacement.index)];
      mutedDesktopStream := Some(replacement.index);
      ghost var claimed := Abs();
      var saved := Persist(now, v.save);
      if saved.Raised? { return; }
      ghost var wrote := Wrote(Persisted(claimed, now, v.save.readings));
      ghost var first := [moved, wrote];
      DiskAfter(old(file), [], wrote);
      DiskAfter(old(file), [moved], wrote);
      HoldStream(true, conflict, v);
      ghost var rest := Hold(claimed, true, conflict, v).entries;
      OnDiskConcat(old(file), first, rest);
      assert log == old(log) + (first + rest);
    }

    method GuardDesktopAudio(playing: bool, now: real, v: GuardView)
      modifies this
      ensures var g := Guard(old(Abs()), playing, now, v);
        Abs() == g.sup && log == old(log) + g.entries && file == OnDisk(old(file), g.entries)
    {
      hide Owned, Hold, Claim, Adopt, OnDisk;
      DiskAfter(file, [], Quiet);
      if v.streams.Raised? { return; }
      var streams := v.streams.value;
      var inBridge := false;
      if |streams| == 1 {
        if v.inBridge.Raised? { return; }
        inBridge := v.inBridge.value;
      }
      var conflict := playing || inBridge;
      if mutedDesktopStream.None? {
        ClaimSole(streams, conflict, now, v);
        return;
      }
      var index := mutedDesktopStream.value;
      var owned := Owned(streams, index);
      if owned.Some? {
        HoldStream(owned.value.mute, conflict, v);
      } else if |streams| == 1 && streams[0].mute {
        AdoptSole(streams[0], conflict, now, v);
      } else if |streams| == 1 {
        DiskAfter(file, [], Lost(index));
        log := log + [Lost(index)];
        mutedDesktopStream := None;
        ghost var rest := Claim(Abs(), streams, conflict, now, v).entries;
        ClaimSole(streams, conflict, now, v);
        OnDiskConcat(old(file), [Lost(index)], rest);
        assert log == old(log) + ([Lost(index)] + rest);
      }
    }

    /** Prunes the budget of the class and, unless it is used up, charges an attempt to it. */
    method ChargeAttempt(c: Class, now: real) returns (full: bool)
      modifies `repairTimes, `routeRepairTimes, `pcmResumeTimes, `log
      ensures var kept := Recent(old(Abs()).times.At(c), now);
        && full == (|kept| >= Limit(c))
        && Abs() == old(Abs()).(times := old(Abs()).times.With(c, if full then kept else kept + [now]))
        && log == if full then old(log) else old(log) + [Spent(c, now)]
    {
      match c {
        case Route =>
          routeRepairTimes := Recent(routeRepairTimes, now);
          full := |routeRepairTimes| >= ROUTE_REPAIR_LIMIT;
          if !full { routeRepairTimes := routeRepairTimes + [now]; }
        case Pcm =>
          pcmResumeTimes := Recent(pcmResumeTimes, now);
          full := |pcmResumeTimes| >= PCM_RESUME_LIMIT;
          if !full { pcmResumeTimes := pcmResumeTimes + [now]; }
        case Transport =>
          repairTimes := Recent(repairTimes, now);
          full := |repairTimes| >= ROUTE_REPAIR_LIMIT;
          if !full { repairTimes := repairTimes + [now]; }
      }
      if !full { log := log + [Spent(c, now)]; }
    }

    method FaultFound(finding: Finding, now: real, v: RepairView) returns (raised: bool)
      modifies this
      ensures var o := Fault(old(Abs()), finding, now, v);
        && Abs() == o.sup && log == old(log) + o.entries && raised == o.raised
        && file == OnDisk(old(file), o.entries)
    {
      hide Recover, OnDisk;
      DiskAfter(file, [], if WaitOnly(finding.kind) then Waited(finding.kind) else Saw(finding.kind));
      phase := Degraded;
      if WaitOnly(finding.kind) {
        previousFault, consecutive := None, 0;
        log := log + [Waited(finding.kind)];
        return false;
      }
      consecutive := if previousFault == Some(finding.kind) then consecutive + 1 else 1;
      previousFault := Some(finding.kind);
      log := log + [Saw(finding.kind)];
      if consecutive < Required(finding.kind) || (now < settleUntil && ClassOf(finding.kind) != Route) { return false; }
      ghost var r := Recover(Abs(), finding, now, v).entries;
      raised := Attempt(finding, now, v);
      OnDiskConcat(old(file), [Saw(finding.kind)], r);
      assert log == old(log) + ([Saw(finding.kind)] + r);
    }

    method Attempt(finding: Finding, now: real, v: RepairView) returns (raised: bool)
      modifies this
      ensures var o := Recover(old(Abs()), finding, now, v);
        && Abs() == o.sup && log == old(log) + o.entries && raised == o.raised
        && file == OnDisk(old(file), o.entries)
    {
      hide Persisted, Recent, OnDisk, ClassOf, Settled, Limit;
      DiskAfter(file, [], Quiet);
      DiskAfter(file, [], Spent(ClassOf(finding.kind), now));
      var c := ClassOf(finding.kind);
      var full := ChargeAttempt(c, now);
      if full { return false; }
      phase := Recovering;
      var saved := Persist(now, v.save);
      if saved.Raised? { return true; }
      OnDiskConcat(old(file), [Spent(c, now)], SavedEntry(Abs(), now, v.save));
      DiskAfter(old(file), [Spent(c, now)] + SavedEntry(Abs(), now, v.save), Tried(finding, stage, now, v.called));
      assert [Spent(c, now)] + SavedEntry(Abs(), now, v.save) + [Tried(finding, stage, now, v.called)]
          == Recover(old(Abs()), finding, now, v).entries;
      Proceed(finding, c, now, v.called);
      return v.result.Raised?;
    }

    /** The attempt itself, once it is charged and on disk. */
    method Proceed(finding: Finding, c: Class, now: real, called: real)
      modifies this
      ensures Abs() == Settled(old(Abs()), c, now) && file == old(file)
      ensures log == old(log) + [Tried(finding, old(stage), now, called)]
    {
      log := log + [Tried(finding, stage, now, called)];
      stage := if c == Transport then stage + 1 else 0;
      consecutive := 0;
      settleUntil := now + SettleAfter(c);
      if c == Pcm { nextProbe := settleUntil; }
      nextInfrastructure := zero;
    }

    method TickAt(now: real, v: TickView) returns (raised: bool)
      modifies this
      ensures var o := Tick(old(Abs()), now, v);
        && Abs() == o.sup && log == old(log) + o.entries && raised == o.raised
        && file == OnDisk(old(file), o.entries)
    {
      if v.mode.Raised? { return true; }
      if now >= nextInfrastructure {
        var found := ObserveInfrastructure(v.infrastructure);
        if found.Raised? { return true; }
        infrastructureFault := found.value;
        nextInfrastructure := now + PROBE_PERIOD;
        if infrastructureFault.Some? {
          raised := FaultFound(infrastructureFault.value, now, v.repair);
          return;
        }
      }
      if infrastructureFault.Some? { return false; }
      raised := Observe(v.mode.value, now, v);
    }

    method Observe(mode: Mode, now: real, v: TickView) returns (raised: bool)
      modifies this
      ensures var o := AfterInfrastructure(old(Abs()), mode, now, v);
        && Abs() == o.sup && log == old(log) + o.entries && raised == o.raised
        && file == OnDisk(old(file), o.entries)
    {
      hide Guard, AfterGuard;
      if v.playing.Raised? { return true; }
      var playing := v.playing.value;
      ghost var g := Guard(Abs(), playing, now, v.guard);
      GuardDesktopAudio(playing, now, v.guard);
      ghost var rest := AfterGuard(Abs(), playing, mode, now, v).entries;
      raised := CheckRoutes(playing, mode, now, v);
      OnDiskConcat(old(file), g.entries, rest);
      assert log == old(log) + (g.entries + rest);
    }

    method CheckRoutes(playing: bool, mode: Mode, now: real, v: TickView) returns (raised: bool)
      modifies this
      ensures var o := AfterGuard(old(Abs()), playing, mode, now, v);
        && Abs() == o.sup && log == old(log) + o.entries && raised == o.raised
        && file == OnDisk(old(file), o.entries)
    {
      var fault := CaptureRoute(v.capture);
      if fault.None? { fault := SourceRoute(v.source); }
      if fault.None? { fault := ReceiverRouteFault(v.receiver); }
      if fault.Some? {
        raised := FaultFound(fault.value, now, v.repair);
      } else {
        raised := Reconciled(playing, mode, now, v);
      }
    }

    method Reconciled(playing: bool, mode: Mode, now: real, v: TickView) returns (raised: bool)
      modifies this
      ensures var o := Playback(old(Abs()), playing, mode, now, v);
        && Abs() == o.sup && log == old(log) + o.entries && raised == o.raised
        && file == OnDisk(old(file), o.entries)
    {
      hide OnDisk, Probing;
      DiskAfter(file, [], Changed(now));
      if v.reconcile.Raised? { return true; }
      if v.reconcile.value {
        settleUntil := now + SETTLE_SECONDS;
        consecutive := 0;
        nextProbe := settleUntil;
        log := log + [Changed(now)];
        ghost var rest := Probing(Abs(), playing, mode, now, v).entries;
        assert Abs() == AfterChange(old(Abs()), now);
        raised := ProbeIfDue(playing, mode, now, v);
        OnDiskConcat(old(file), [Changed(now)], rest);
        assert log == old(log) + ([Changed(now)] + rest);
      } else {
        raised := ProbeIfDue(playing, mode, now, v);
      }
    }

    /** No fault is seen: the streak ends, and with `over` the escalation too. */
    method FindCalm(e: Entry, now: Phase, over: bool)
      modifies this`previousFault, this`consecutive, this`stage, this`phase, this`log
      ensures Abs() == old(Abs()).(previousFault := None, consecutive := 0,
                                   stage := if over then 0 else old(stage), phase := now)
      ensures log == old(log) + [e]
    {
      previousFault, consecutive := None, 0;
      if over { stage := 0; }
      phase := now;
      log := log + [e];
    }

    method ProbeIfDue(playing: bool, mode: Mode, now: real, v: TickView) returns (raised: bool)
      modifies this
      ensures var o := Probing(old(Abs()), playing, mode, now, v);
        && Abs() == o.sup && log == old(log) + o.entries && raised == o.raised
        && file == OnDisk(old(file), o.entries)
    {
      hide OnDisk, Probe, Fault;
      DiskAfter(file, [], Quiet);
      if mode == Stopped || mode == Manual {
        phase := ManualControl;
        return false;
      }
      if !playing {
        FindCalm(Quiet, IdleNow, true);
        return false;
      }
      if now < settleUntil {
        phase := Connecting;
        return false;
      }
      if now < nextProbe { return false; }
      nextProbe := now + PROBE_PERIOD;
      var found := Probe(v.probe, mode);
      if found.Raised? { return true; }
      var finding := found.value;
      DiskAfter(file, [], Calm(finding.kind));
      if finding.kind == Verified {
        FindCalm(Calm(Verified), PlayingNow, true);
        return false;
      } else if finding.kind == Idle || finding.kind == Unverified {
        FindCalm(Calm(finding.kind), if finding.kind == Idle then IdleNow else Unproven, false);
        return false;
      }
      raised := FaultFound(finding, now, v.repair);
      if !raised && finding.kind == PcmPaused && phase == Degraded {
        nextProbe := now + PCM_RESUME_PROBE_SECONDS;
      }
    }

    /** One round of main's loop: a failed tick is reported, a failed save ends the process. */
    method LoopOnce(ev: Event) returns (survives: bool)
      requires ev.Round? && ev.crash.None?
      modifies this
      ensures survives == ev.save.Saved?
      ensures survives ==> Abs() == AfterTick(Tick(old(Abs()), ev.now, ev.view))
      ensures log == old(log) + RoundDone(old(Abs()), ev)
      ensures file == OnDisk(old(file), RoundDone(old(Abs()), ev))
    {
      var raised := TickAt(ev.now, ev.view);
      if raised { phase := Degraded; }
      ghost var entries := Tick(old(Abs()), ev.now, ev.view).entries;
      ghost var tail := SavedEntry(Abs(), ev.saveAt, ev.save);
      var saved := Persist(ev.saveAt, ev.save);
      survives := saved.Got?;
      OnDiskConcat(old(file), entries, tail);
      assert log == old(log) + (entries + tail);
    }
  }

  lemma DiskAfter(disk: Option<Disk>, entries: seq<Entry>, e: Entry)
    ensures OnDisk(disk, []) == disk
    ensures OnDisk(disk, entries + [e]) == if e.Wrote? then Some(e.disk) else OnDisk(disk, entries)
    ensures entries == [] ==> entries + [e] == [e]
    ensures |entries| == 1 ==> entries + [e] == [entries[0], e]
  {
    assert (entries + [e])[..|entries|] == entries;
  }

  function Steps(m: Machine, events: seq<Event>): Machine {
    if events == [] then m else Step(Steps(m, events[..|events| - 1]), events[|events| - 1])
  }

  lemma DeadStaysDead(m: Machine, events: seq<Event>, n: nat)
    requires n <= |events| && Steps(m, events[..n]).alive.None?
    requires forall i :: n <= i < |events| ==> events[i].Round?
    ensures Steps(m, events) == Steps(m, events[..n])
  {
    if n == |events| {
      assert events[..n] == events;
    } else {
      var front := events[..|events| - 1];
      assert front[..n] == events[..n];
      DeadStaysDead(m, front, n);
    }
  }

  lemma BootStep(m: Machine, ev: Event)
    requires ev.Boot? && m.alive.None?
    ensures var s := Restored(ev.zero, m.disk, ev.now, ev.wall);
      var done := [Began(ev.now, ev.wall)] + SavedEntry(s, ev.saveAt, ev.save);
      && Step(m, ev).log == m.log + done && Step(m, ev).disk == OnDisk(m.disk, done)
      && Step(m, ev).alive == if ev.save.Saved? then Some(s) else None
  {}

  lemma RoundStep(m: Machine, ev: Event)
    requires ev.Round? && ev.crash.None? && m.alive.Some?
    ensures var done := RoundDone(m.alive.value, ev);
      && Step(m, ev).log == m.log + done && Step(m, ev).disk == OnDisk(m.disk, done)
      && Step(m, ev).alive == if ev.save.Saved? then Some(AfterTick(Tick(m.alive.value, ev.now, ev.view))) else None
  {}

  lemma StopStep(m: Machine, ev: Event)
    requires ev.Shutdown? && m.alive.Some?
    ensures var done := SavedEntry(m.alive.value, ev.now, ev.save);
      Step(m, ev).log == m.log + done && Step(m, ev).disk == OnDisk(m.disk, done)
  {}

  lemma CrashStep(m: Machine, ev: Event)
    requires ev.Round? && m.alive.Some?
    ensures var done := RoundDone(m.alive.value, ev);
      Step(m, ev).log == m.log + done && Step(m, ev).disk == OnDisk(m.disk, done)
    ensures RoundDone(m.alive.value, ev) <= RoundDone(m.alive.value, ev.(crash := None))
    ensures ev.crash.Some? ==>
      |RoundDone(m.alive.value, ev)| == Min(ev.crash.value, |RoundDone(m.alive.value, ev.(crash := None))|)
  {
    hide Tick, OnDisk;
    assert RoundEntries(m.alive.value, ev) == RoundEntries(m.alive.value, ev.(crash := None));
  }

  /** The last status file among these effects, as the process left it. */
  method FileAfter(file: Option<Disk>, entries: seq<Entry>) returns (left: Option<Disk>)
    ensures left == OnDisk(file, entries)
  {
    left := file;
    for i := 0 to |entries|
      invariant left == OnDisk(file, entries[..i])
    {
      assert entries[..i + 1][..i] == entries[..i];
      if entries[i].Wrote? { left := Some(entries[i].disk); }
    }
    assert entries[..|entries|] == entries;
  }

  /** How a process ends that no failed write ends: with a requested stop, or dying within a
      round after some of its effects. */
  predicate Ends(ev: Event) { ev.Shutdown? || (ev.Round? && ev.crash.Some?) }

  method LastEvent(supervisor: Supervisor, ev: Event, ghost m: Machine) returns (log: seq<Entry>, left: Option<Disk>)
    requires Ends(ev) && m.alive == Some(supervisor.Abs()) && m.log == supervisor.log && m.disk == supervisor.file
    modifies supervisor
    ensures log == Step(m, ev).log && left == Step(m, ev).disk
  {
    hide OnDisk, Tick, AfterTick, RoundDone, SavedEntry, Step;
    var before, file := supervisor.log, supervisor.file;
    if ev.Shutdown? {
      StopStep(m, ev);
      var saved := supervisor.Persist(ev.now, ev.save);
      return supervisor.log, supervisor.file;
    }
    // the whole round, of which only the effects before the death have happened
    CrashStep(m, ev);
    var survives := supervisor.LoopOnce(ev.(crash := None));
    var all := supervisor.log[|before|..];
    var n := Min(ev.crash.value, |all|);
    assert all == RoundDone(m.alive.value, ev.(crash := None));
    assert all[..n] == RoundDone(m.alive.value, ev);
    log := before + all[..n];
    left := FileAfter(file, all[..n]);
  }

  /** main, from start to the end of the process, however it ends: the effects and the file it
      leaves are those of the run the theorems speak about. */
  method Serve(file: Option<Disk>, clock: real, boot: Event, rounds: seq<Event>, end: Option<Event>)
    returns (log: seq<Entry>, left: Option<Disk>)
    requires boot.Boot? && forall i :: 0 <= i < |rounds| ==> rounds[i].Round? && rounds[i].crash.None?
    requires end.Some? ==> Ends(end.value)
    ensures var m := Steps(Machine(None, file, clock, clock, []), [boot] + rounds);
      var n := if end.Some? then Step(m, end.value) else m;
      log == n.log && left == n.disk
  {
    hide Step, OnDisk, Tick, AfterTick, RoundDone, Restored, Persisted, SavedEntry;
    ghost var start := Machine(None, file, clock, clock, []);
    ghost var events := [boot] + rounds;
    BootStep(start, boot);
    DiskAfter(file, [], Began(boot.now, boot.wall));
    var supervisor := new Supervisor(boot.zero, file);
    supervisor.Restore(boot.now, boot.wall);
    var saved := supervisor.Persist(boot.saveAt, boot.save);
    assert events[..1] == [boot];
    assert [boot][..0] == [] && Steps(start, [boot]) == Step(start, boot);
    ghost var first := SavedEntry(Restored(boot.zero, file, boot.now, boot.wall), boot.saveAt, boot.save);
    OnDiskConcat(file, [Began(boot.now, boot.wall)], first);
    assert supervisor.log == [] + ([Began(boot.now, boot.wall)] + first);
    var alive := saved.Got?;
    var i := 0;
    while alive && i < |rounds|
      invariant 0 <= i <= |rounds|
      invariant var m := Steps(start, events[..i + 1]);
        && supervisor.log == m.log && supervisor.file == m.disk && alive == m.alive.Some?
        && (alive ==> supervisor.Abs() == m.alive.value)
    {
      assert events[..i + 2][..i + 1] == events[..i + 1] && events[i + 1] == rounds[i];
      RoundStep(Steps(start, events[..i + 1]), rounds[i]);
      alive := supervisor.LoopOnce(rounds[i]);
      i := i + 1;
    }
    if i < |rounds| {
      DeadStaysDead(start, events, i + 1);
    } else {
      assert events[..i + 1] == events;
    }
    if alive && end.Some? {
      log, left := LastEvent(supervisor, end.value, Steps(start, events));
    } else {
      if end.Some? { NothingMore(Steps(start, events), end.value); }
      log, left := supervisor.log, supervisor.file;
    }
  }

  lemma NothingMore(m: Machine, ev: Event)
    requires Ends(ev) && m.alive.None?
    ensures Step(m, ev) == m
  {}
}
