/** Two runs that show the conditions on the desktop mute are needed: an index that comes back
    loses a mute, and a claim whose early write failed unmutes a stream nobody here muted. */
module MuteExamples {
  import opened Prelude
  import opened Findings
  import opened SupervisorSteps
  import opened SupervisorRuns
  import opened Mutes

  function Reads(t: real): Save { Saved(_ => t) }

  /** Capture cannot be observed, so the tick does nothing after its guard step. */
  function Watching(t: real, playing: bool, guard: GuardView): TickView {
    TickView(Got(Auto), HEALTHY, Got(playing), guard, CaptureView(Raised, Raised), SourceView(Raised, Raised),
             ReceiverView(Raised, Raised), Raised, ProbeView(Raised, Raised, Raised, Raised, Raised, Raised, Raised),
             RepairView(SaveFailed, t, Raised))
  }

  function Watch(t: real, playing: bool, guard: GuardView, save: Save): Event {
    Round(t, Watching(t, playing, guard), t, save, t, None)
  }

  function Start(t: real): Event { Boot(0.0, t, t, t, Reads(t), t) }

  function Checked(s: Sup, t: real): Sup {
    if t >= s.nextInfrastructure then s.(infrastructureFault := None, nextInfrastructure := t + PROBE_PERIOD) else s
  }

  lemma WatchTicks(s: Sup, t: real, playing: bool, guard: GuardView)
    requires s.infrastructureFault.None?
    ensures var g, o := Guard(Checked(s, t), playing, t, guard), Tick(s, t, Watching(t, playing, guard));
      && o.entries == g.entries + [Waited(HostUnavailable)] && !o.raised
      && o.sup.muted == g.sup.muted && o.sup.infrastructureFault == g.sup.infrastructureFault
  {
    HealthyIsHealthy();
    hide Infrastructure, Guard, SourceRoute, ReceiverRouteFault, Playback;
  }

  lemma GuardKeepsChecks(s: Sup, playing: bool, now: real, v: GuardView)
    ensures Guard(s, playing, now, v).sup.infrastructureFault == s.infrastructureFault
  {}

  lemma WatchSteps(m: Machine, t: real, playing: bool, guard: GuardView, save: Save)
    requires m.alive.Some? && m.alive.value.infrastructureFault.None?
    ensures var n, g := Step(m, Watch(t, playing, guard, save)), Guard(Checked(m.alive.value, t), playing, t, guard);
      && n.clock == t && n.due == t + PERIOD && (n.alive.Some? <==> save.Saved?)
      && (save.Saved? ==> n.alive.value.muted == g.sup.muted && n.alive.value.infrastructureFault.None?)
      && Outstanding(n.log) == Outstanding(m.log + g.entries)
      && FileClaim(n.log) == if save.Saved? then g.sup.muted else FileClaim(m.log + g.entries)
  {
    hide Tick, Guard, Outstanding, FileClaim, OnDisk, Persisted;
    var ev, s := Watch(t, playing, guard, save), m.alive.value;
    WatchTicks(s, t, playing, guard);
    GuardKeepsChecks(Checked(s, t), playing, t, guard);
    var g, o := Guard(Checked(s, t), playing, t, guard), Tick(s, t, Watching(t, playing, guard));
    WatchLog(m.log + g.entries, o.sup, t, save);
    assert Step(m, ev).log == m.log + g.entries + [Waited(HostUnavailable)] + SavedEntry(o.sup, t, save);
  }

  /** What a round leaves, as far as the mute goes. */
  lemma OneWatch(events: seq<Event>, t: real, playing: bool, guard: GuardView, save: Save)
    requires TimelyRun(events) && Run(events).alive.Some? && Run(events).alive.value.infrastructureFault.None?
    requires Run(events).clock <= t && Run(events).due <= t && TimelySave(guard.save, t, t) && TimelySave(save, t, t)
    ensures var m, n := Run(events), Run(events + [Watch(t, playing, guard, save)]);
      var g := Guard(Checked(m.alive.value, t), playing, t, guard);
      && TimelyRun(events + [Watch(t, playing, guard, save)]) && n.clock == t && n.due == t + PERIOD
      && (n.alive.Some? <==> save.Saved?)
      && (save.Saved? ==> n.alive.value.muted == g.sup.muted && n.alive.value.infrastructureFault.None?)
      && Outstanding(n.log) == Outstanding(m.log + g.entries)
      && FileClaim(n.log) == if save.Saved? then g.sup.muted else FileClaim(m.log + g.entries)
  {
    var ev := Watch(t, playing, guard, save);
    assert (events + [ev])[..|events + [ev]| - 1] == events;
    WatchSteps(Run(events), t, playing, guard, save);
    assert Run(events + [ev]) == Step(Run(events), ev);
    hide Run, Step, Guard, Outstanding, FileClaim, Checked;
    assert Timely(Run(events), ev);
  }

  lemma WatchLog(log: seq<Entry>, s: Sup, t: real, save: Save)
    ensures var all := log + [Waited(HostUnavailable)] + SavedEntry(s, t, save);
      && Outstanding(all) == Outstanding(log) && FileClaim(all) == if save.Saved? then s.muted else FileClaim(log)
  {
    hide Outstanding, FileClaim;
    var tail := SavedEntry(s, t, save);
    LastEffect(log, Waited(HostUnavailable));
    if save.Saved? { LastEffect(log + [Waited(HostUnavailable)], tail[0]); }
    else { assert log + [Waited(HostUnavailable)] + tail == log + [Waited(HostUnavailable)]; }
  }

  lemma RestoredClaim(log: seq<Entry>, t: real)
    ensures var s := Restored(0.0, OnDisk(None, log), t, t);
      s.muted == FileClaim(log) && s.infrastructureFault.None?
  {
    hide OnDisk, Restamped, Latest;
  }

  lemma PersistedClaim(s: Sup, t: real)
    ensures Persisted(s, t, Reads(t).readings).muted == s.muted
  {}

  lemma StartSteps(m: Machine, t: real)
    requires m.alive.None? && m.disk == OnDisk(None, m.log)
    ensures var n := Step(m, Start(t));
      && n.clock == t && n.due == t
      && n.alive.Some? && n.alive.value.infrastructureFault.None? && n.alive.value.muted == FileClaim(m.log)
      && Outstanding(n.log) == Outstanding(m.log) && FileClaim(n.log) == FileClaim(m.log)
  {
    hide Outstanding, FileClaim, OnDisk, Restored, Persisted;
    var s := Restored(0.0, m.disk, t, t);
    RestoredClaim(m.log, t);
    PersistedClaim(s, t);
    var w := Wrote(Persisted(s, t, Reads(t).readings));
    assert Step(m, Start(t)).log == m.log + [Began(t, t)] + [w];
    LastEffect(m.log, Began(t, t));
    LastEffect(m.log + [Began(t, t)], w);
  }

  lemma OneStart(events: seq<Event>, t: real)
    requires TimelyRun(events) && Run(events).alive.None? && 0.0 <= t && Run(events).clock <= t
    ensures var m, n := Run(events), Run(events + [Start(t)]);
      && TimelyRun(events + [Start(t)]) && n.clock == t && n.due == t
      && n.alive.Some? && n.alive.value.infrastructureFault.None? && n.alive.value.muted == FileClaim(m.log)
      && Outstanding(n.log) == Outstanding(m.log) && FileClaim(n.log) == FileClaim(m.log)
  {
    var ev := Start(t);
    assert (events + [ev])[..|events + [ev]| - 1] == events;
    DiskIsLastWritten(events);
    StartSteps(Run(events), t);
    assert Run(events + [ev]) == Step(Run(events), ev);
    hide Run, Step, Outstanding, FileClaim, OnDisk;
    assert Timely(Run(events), ev);
  }

  // ---------------------------------------------------------------------- the streams

  const MUTED := true

  function Sees(streams: seq<Desktop>, save: Save, after: seq<Desktop>): GuardView {
    GuardView(Got(streams), Got(false), save, MuteView(Got(streams), Got(()), Got(after)))
  }

  /** Stream 5 plays against the bridge: claimed, and muted if the claim could be written. */
  lemma FiveIsClaimed(s: Sup, t: real, save: Save, log: seq<Entry>)
    requires s.muted.None?
    ensures var g := Guard(s, true, t, Sees([Desktop(5, !MUTED)], save, [Desktop(5, MUTED)]));
      && g.sup.muted == Some(5)
      && Outstanding(log + g.entries) == Outstanding(log) + (if save.Saved? then {5} else {})
      && FileClaim(log + g.entries) == if save.Saved? then Some(5) else FileClaim(log)
  {
    var v := Sees([Desktop(5, !MUTED)], save, [Desktop(5, MUTED)]);
    var g := Guard(s, true, t, v);
    if save.Saved? {
      SetMuteOf(5, true, v.mute);
      IssuesTo(5, true, v.mute, Desktop(5, !MUTED));
      assert g.entries == [g.entries[0], MuteEntry(5, true, v.mute)] && g.entries[0].Wrote?;
      LastEffect(log, g.entries[0]);
      LastEffect(log + [g.entries[0]], g.entries[1]);
      assert log + g.entries == log + [g.entries[0]] + [g.entries[1]];
    } else {
      assert log + g.entries == log;
    }
  }

  lemma SetMuteOf(index: int, mute: bool, v: MuteView)
    requires v.before.Got? && v.after.Got? && v.command.Got? && Count(v.before.value, index) == 1
    requires Desktop(index, mute) in v.after.value
    ensures SetMute(index, mute, v) == Got(true)
  {}

  lemma IssuesTo(index: int, mute: bool, v: MuteView, d: Desktop)
    requires v.before.Got? && Count(v.before.value, index) == 1
    requires d in v.before.value && d.index == index && d.mute != mute
    ensures Issues(index, mute, v)
  {}

  /** Nothing can be seen of the stream when the mute is about to be issued. */
  function Blind(streams: seq<Desktop>, save: Save): GuardView {
    GuardView(Got(streams), Got(false), save, MuteView(Raised, Got(()), Raised))
  }

  /** Stream 5 is claimed and the claim written, but the mute is never issued. */
  lemma FiveIsClaimedInVain(s: Sup, t: real, log: seq<Entry>)
    requires s.muted.None?
    ensures var g := Guard(s, true, t, Blind([Desktop(5, !MUTED)], Reads(t)));
      && g.sup.muted == Some(5) && Outstanding(log + g.entries) == Outstanding(log)
      && Commanded(5, true, false, Raised) in g.entries
  {
    var v := Blind([Desktop(5, !MUTED)], Reads(t));
    var g := Guard(s, true, t, v);
    assert g.entries == [g.entries[0], MuteEntry(5, true, v.mute)] && g.entries[0].Wrote?;
    assert MuteEntry(5, true, v.mute) == Commanded(5, true, false, Raised);
    assert g.entries[1] in g.entries;
    LastEffect(log, g.entries[0]);
    LastEffect(log + [g.entries[0]], g.entries[1]);
    assert log + g.entries == log + [g.entries[0]] + [g.entries[1]];
  }

  /** Stream 7 has inherited the mute of 5, but the new claim cannot be written. */
  lemma SevenIsAdopted(s: Sup, t: real, log: seq<Entry>)
    requires s.muted == Some(5) && Outstanding(log) == {5}
    ensures var g := Guard(s, true, t, Sees([Desktop(7, MUTED)], SaveFailed, []));
      Outstanding(log + g.entries) == {7} && FileClaim(log + g.entries) == FileClaim(log)
  {
    LastEffect(log, Moved(5, 7));
  }

  /** The conflict is over and an index 5 is there: it is unmuted and the claim dropped. */
  lemma FiveIsReleased(s: Sup, t: real, others: seq<Desktop>, log: seq<Entry>)
    requires s.muted == Some(5) && (others == [] || others == [Desktop(7, MUTED)])
    ensures var g := Guard(s, false, t, Sees([Desktop(5, MUTED)] + others, Reads(t), [Desktop(5, !MUTED)]));
      && g.sup.muted == None && g.entries == [Commanded(5, false, true, Got(true))]
      && Outstanding(log + g.entries) == Outstanding(log) - {5}
  {
    var streams := [Desktop(5, MUTED)] + others;
    assert Count(streams, 5) == 1 by {
      assert Count([], 5) == 0;
      assert [Desktop(5, MUTED)][..0] == [];
      assert Count([Desktop(5, MUTED)], 5) == 1;
      if others == [] { assert streams == [Desktop(5, MUTED)]; }
      else { assert streams[..|streams| - 1] == [Desktop(5, MUTED)]; }
    }
    var v := Sees(streams, Reads(t), [Desktop(5, !MUTED)]).mute;
    SetMuteOf(5, false, v);
    IssuesTo(5, false, v, Desktop(5, MUTED));
    LastEffect(log, MuteEntry(5, false, v));
  }

  // ------------------------------------------------------------------------- the runs

  /** A mute of 5 moves to 7 while the file cannot be written, the process dies of it, and when
      the next one looks, an index 5 is there again. */
  const RETURNING: seq<Event> :=
    [] + [Start(0.0)]
    + [Watch(0.0, true, Sees([Desktop(5, !MUTED)], Reads(0.0), [Desktop(5, MUTED)]), Reads(0.0))]
    + [Watch(5.0, true, Sees([Desktop(7, MUTED)], SaveFailed, []), SaveFailed)]
    + [Start(10.0)]
    + [Watch(10.0, false, Sees([Desktop(5, MUTED)] + [Desktop(7, MUTED)], Reads(10.0), [Desktop(5, !MUTED)]),
      Reads(10.0))]

  lemma NothingYet()
    ensures TimelyRun([]) && Run([]).alive.None? && Run([]).clock == 0.0 && Run([]).due == 0.0
    ensures Outstanding(Run([]).log) == {} && FileClaim(Run([]).log) == None
  {}

  /** The mute of 7 is left without a claim, in memory and on file. */
  lemma ReturningLosesTheMute()
    ensures TimelyRun(RETURNING)
    ensures var m := Run(RETURNING);
      && m.alive.Some? && m.alive.value.muted == None && FileClaim(m.log) == None && Outstanding(m.log) == {7}
      && !AllTied(FileClaim(m.log), m.log)
  {
    NothingYet();
    hide Run, TimelyRun, Guard, Outstanding, FileClaim;
    var a: seq<Event> := [] + [Start(0.0)];
    OneStart([], 0.0);
    var b := a + [Watch(0.0, true, Sees([Desktop(5, !MUTED)], Reads(0.0), [Desktop(5, MUTED)]), Reads(0.0))];
    FiveIsClaimed(Checked(Run(a).alive.value, 0.0), 0.0, Reads(0.0), Run(a).log);
    OneWatch(a, 0.0, true, Sees([Desktop(5, !MUTED)], Reads(0.0), [Desktop(5, MUTED)]), Reads(0.0));
    var c := b + [Watch(5.0, true, Sees([Desktop(7, MUTED)], SaveFailed, []), SaveFailed)];
    SevenIsAdopted(Checked(Run(b).alive.value, 5.0), 5.0, Run(b).log);
    OneWatch(b, 5.0, true, Sees([Desktop(7, MUTED)], SaveFailed, []), SaveFailed);
    var d := c + [Start(10.0)];
    OneStart(c, 10.0);
    FiveIsReleased(Checked(Run(d).alive.value, 10.0), 10.0, [Desktop(7, MUTED)], Run(d).log);
    OneWatch(d, 10.0, false, Sees([Desktop(5, MUTED)] + [Desktop(7, MUTED)], Reads(10.0), [Desktop(5, !MUTED)]),
      Reads(10.0));
    assert 7 in Outstanding(Run(RETURNING).log);
  }

  /** A claim whose early write failed, so that nothing was muted; the user mutes the stream. */
  const UNUSED: seq<Event> :=
    [] + [Start(0.0)] + [Watch(0.0, true, Sees([Desktop(5, !MUTED)], SaveFailed, [Desktop(5, MUTED)]), Reads(0.0))]

  /** When the conflict ends, the user's mute is undone. */
  lemma UnusedClaimUnmutes()
    ensures var guard := Sees([Desktop(5, MUTED)] + [], Reads(5.0), [Desktop(5, !MUTED)]);
      var m := Run(UNUSED);
      && TimelyRun(UNUSED + [Watch(5.0, false, guard, Reads(5.0))]) && m.alive.Some?
      && Guard(Checked(m.alive.value, 5.0), false, 5.0, guard).entries == [Commanded(5, false, true, Got(true))]
      && Outstanding(m.log) == {}
  {
    NothingYet();
    hide Run, TimelyRun, Guard, Outstanding, FileClaim;
    var a: seq<Event> := [] + [Start(0.0)];
    OneStart([], 0.0);
    FiveIsClaimed(Checked(Run(a).alive.value, 0.0), 0.0, SaveFailed, Run(a).log);
    OneWatch(a, 0.0, true, Sees([Desktop(5, !MUTED)], SaveFailed, [Desktop(5, MUTED)]), Reads(0.0));
    var guard := Sees([Desktop(5, MUTED)] + [], Reads(5.0), [Desktop(5, !MUTED)]);
    FiveIsReleased(Checked(Run(UNUSED).alive.value, 5.0), 5.0, [], Run(UNUSED).log);
    OneWatch(UNUSED, 5.0, false, guard, Reads(5.0));
  }

  /** A claim that was written, but whose mute could not be issued; the user mutes the stream. */
  const INVAIN: seq<Event> :=
    [] + [Start(0.0)] + [Watch(0.0, true, Blind([Desktop(5, !MUTED)], Reads(0.0)), Reads(0.0))]

  /** When the conflict ends, the user's mute is undone all the same. */
  lemma FailedMuteUnmutes()
    ensures var guard := Sees([Desktop(5, MUTED)] + [], Reads(5.0), [Desktop(5, !MUTED)]);
      var m := Run(INVAIN);
      && TimelyRun(INVAIN + [Watch(5.0, false, guard, Reads(5.0))]) && m.alive.Some?
      && Guard(Checked(m.alive.value, 5.0), false, 5.0, guard).entries == [Commanded(5, false, true, Got(true))]
      && Outstanding(m.log) == {}
  {
    NothingYet();
    hide Run, TimelyRun, Guard, Outstanding, FileClaim;
    var a: seq<Event> := [] + [Start(0.0)];
    OneStart([], 0.0);
    FiveIsClaimedInVain(Checked(Run(a).alive.value, 0.0), 0.0, Run(a).log);
    OneWatch(a, 0.0, true, Blind([Desktop(5, !MUTED)], Reads(0.0)), Reads(0.0));
    var guard := Sees([Desktop(5, MUTED)] + [], Reads(5.0), [Desktop(5, !MUTED)]);
    FiveIsReleased(Checked(Run(INVAIN).alive.value, 5.0), 5.0, [], Run(INVAIN).log);
    OneWatch(INVAIN, 5.0, false, guard, Reads(5.0));
  }
}
