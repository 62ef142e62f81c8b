/** Where the attempts on the lists come from: over whole runs, every attempt in memory or on
    file is a charge of its own, and looks no older than restores and no younger than saves
    made it. */
module ChargeHistory {
  import opened Prelude
  import opened Findings
  import opened SupervisorSteps
  import opened SupervisorRuns
  import opened RepairBudgets
  import opened ChargedLists

  /** With saves that take `delay` at most, what each restore's file may be too young by. */
  function SlackOf(log: seq<Entry>, delay: real): real {
    if log == [] then 0.0
    else SlackOf(log[..|log| - 1], delay) + if log[|log| - 1].Began? then delay else 0.0
  }

  function Charges(log: seq<Entry>, c: Class, delay: real): seq<Charge> {
    if log == [] then []
    else
      var front, last := log[..|log| - 1], log[|log| - 1];
      if last.Spent? && last.of == c then
        Charges(front, c, delay) + [Charge(last.at, LagOf(front), SlackOf(front, delay))]
      else Charges(front, c, delay)
  }

  /** A save may make every stamp too young by its delay, until a restore accounts for it. */
  ghost predicate FileKnown(log: seq<Entry>, delay: real) {
    forall c :: Known(FileStamps(log, c), Charges(log, c, delay), LagOf(log), SlackOf(log, delay) + delay)
  }

  ghost predicate FilesKnown(log: seq<Entry>, delay: real) {
    forall p: nat :: p <= |log| ==> FileKnown(log[..p], delay)
  }

  ghost predicate Rooted(s: Sup, log: seq<Entry>, delay: real) {
    && (forall c :: Known(s.times.At(c), Charges(log, c, delay), LagOf(log), SlackOf(log, delay)))
    && FilesKnown(log, delay)
  }

  // ----------------------------------------------------------------- what happens to a log

  function Charging(log: seq<Entry>, e: Entry, c: Class, delay: real): seq<Charge> {
    if e.Spent? && e.of == c then [Charge(e.at, LagOf(log), SlackOf(log, delay))] else []
  }

  lemma ChargesPush(log: seq<Entry>, e: Entry, delay: real)
    ensures forall c :: Charges(log + [e], c, delay) == Charges(log, c, delay) + Charging(log, e, c, delay)
    ensures LagOf(log + [e]) == LagOf(log) + if e.Began? then e.wall - e.now else 0.0
    ensures SlackOf(log + [e], delay) == SlackOf(log, delay) + if e.Began? then delay else 0.0
    ensures OnDisk(None, log + [e]) == if e.Wrote? then Some(e.disk) else OnDisk(None, log)
  {
    assert (log + [e])[..|log + [e]| - 1] == log;
  }

  lemma FilesPush(log: seq<Entry>, e: Entry, delay: real)
    requires FilesKnown(log, delay) && FileKnown(log + [e], delay)
    ensures FilesKnown(log + [e], delay)
  {
    forall p: nat | p <= |log + [e]| ensures FileKnown((log + [e])[..p], delay) {
      if p <= |log| { assert (log + [e])[..p] == log[..p]; } else { assert (log + [e])[..p] == log + [e]; }
    }
  }

  lemma FilesPrefix(log: seq<Entry>, n: nat, delay: real)
    requires FilesKnown(log, delay) && n <= |log|
    ensures FilesKnown(log[..n], delay)
  {
    forall p: nat | p <= n ensures FileKnown(log[..n][..p], delay) { assert log[..n][..p] == log[..p]; }
  }

  /** Whatever does not write the file leaves what it holds known. */
  lemma UnwrittenPush(log: seq<Entry>, e: Entry, delay: real)
    requires FilesKnown(log, delay) && !e.Wrote? && (e.Began? ==> e.now <= e.wall) && 0.0 <= delay
    ensures FilesKnown(log + [e], delay)
  {
    hide Known, Charges, LagOf, SlackOf, OnDisk;
    ChargesPush(log, e, delay);
    assert FileKnown(log[..|log|], delay) && log[..|log|] == log;
    forall c
      ensures Known(FileStamps(log + [e], c), Charges(log + [e], c, delay), LagOf(log + [e]),
                    SlackOf(log + [e], delay) + delay)
    {
      KnownLater(FileStamps(log, c), Charges(log, c, delay), Charges(log + [e], c, delay),
                 LagOf(log), SlackOf(log, delay) + delay, LagOf(log + [e]), SlackOf(log + [e], delay) + delay);
    }
    FilesPush(log, e, delay);
  }

  predicate Steady(e: Entry) { !e.Wrote? && !e.Began? && !e.Spent? }

  lemma SteadyPush(s: Sup, log: seq<Entry>, e: Entry, delay: real)
    requires Rooted(s, log, delay) && Steady(e) && 0.0 <= delay
    ensures Rooted(s, log + [e], delay)
  {
    hide Known, Charges, LagOf, SlackOf, OnDisk, FilesKnown;
    ChargesPush(log, e, delay);
    UnwrittenPush(log, e, delay);
    forall c ensures Charges(log + [e], c, delay) == Charges(log, c, delay) {}
  }

  lemma SavePush(s: Sup, log: seq<Entry>, at: real, readings: nat -> real, delay: real)
    requires Rooted(s, log, delay) && SwiftReadings(readings, at, delay)
    ensures Rooted(s, log + [Wrote(Persisted(s, at, readings))], delay)
  {
    hide Charges, LagOf, SlackOf, OnDisk, FilesKnown, Traced;
    var e := Wrote(Persisted(s, at, readings));
    ChargesPush(log, e, delay);
    forall c ensures Charges(log + [e], c, delay) == Charges(log, c, delay) {}
    forall c
      ensures Known(FileStamps(log + [e], c), Charges(log, c, delay), LagOf(log), SlackOf(log, delay) + delay)
    {
      assert Known(s.times.At(c), Charges(log, c, delay), LagOf(log), SlackOf(log, delay));
      var list := s.times.At(c);
      var which: seq<nat> :| Traced(list, Charges(log, c, delay), which, LagOf(log), SlackOf(log, delay));
      var first := match c case Transport => 1
                   case Route => 1 + |s.times.transport|
                   case Pcm => 1 + |s.times.transport| + |s.times.route|;
      StampedIsKnown(list, Charges(log, c, delay), which, LagOf(log), SlackOf(log, delay), at, readings, first, delay);
      assert FileStamps(log + [e], c) == Stamps(list, at, readings, first);
    }
    FilesPush(log, e, delay);
  }

  /** Pruning a list. */
  lemma Pruned(s: Sup, log: seq<Entry>, c: Class, now: real, delay: real)
    requires Rooted(s, log, delay)
    ensures Rooted(s.(times := s.times.With(c, Recent(s.times.At(c), now))), log, delay)
  {
    hide Charges, LagOf, SlackOf, FilesKnown, Traced, Recent;
    var t := s.(times := s.times.With(c, Recent(s.times.At(c), now)));
    var charges, lag, slack := Charges(log, c, delay), LagOf(log), SlackOf(log, delay);
    assert Known(s.times.At(c), charges, lag, slack);
    var at: seq<nat> :| Traced(s.times.At(c), charges, at, lag, slack);
    var kept := PrunedIsKnown(s.times.At(c), charges, at, lag, slack, now);
    forall d ensures Known(t.times.At(d), Charges(log, d, delay), lag, slack) {
      assert Known(s.times.At(d), Charges(log, d, delay), lag, slack);
    }
  }

  /** Charging an attempt. */
  lemma ChargePush(s: Sup, log: seq<Entry>, c: Class, now: real, delay: real)
    requires Rooted(s, log, delay) && 0.0 <= delay
    ensures Rooted(s.(times := s.times.With(c, s.times.At(c) + [now])), log + [Spent(c, now)], delay)
  {
    hide Charges, LagOf, SlackOf, OnDisk, FilesKnown, Traced;
    var e, t := Spent(c, now), s.(times := s.times.With(c, s.times.At(c) + [now]));
    var charges, lag, slack := Charges(log, c, delay), LagOf(log), SlackOf(log, delay);
    ChargesPush(log, e, delay);
    UnwrittenPush(log, e, delay);
    assert Known(s.times.At(c), charges, lag, slack);
    var at: seq<nat> :| Traced(s.times.At(c), charges, at, lag, slack);
    ChargedIsKnown(s.times.At(c), charges, at, now, lag, slack);
    forall d ensures Known(t.times.At(d), Charges(log + [e], d, delay), lag, slack) {
      assert Known(s.times.At(d), Charges(log, d, delay), lag, slack);
      if d != c { assert Charges(log + [e], d, delay) == Charges(log, d, delay); }
    }
  }

  // ------------------------------------------------------------------------ parts of a tick

  ghost predicate SwiftSave(save: Save, at: real, delay: real) {
    save.Saved? ==> SwiftReadings(save.readings, at, delay)
  }

  lemma SavedRooted(s: Sup, log: seq<Entry>, at: real, save: Save, delay: real)
    requires Rooted(s, log, delay) && SwiftSave(save, at, delay)
    ensures Rooted(s, log + SavedEntry(s, at, save), delay)
  {
    if save.Saved? { SavePush(s, log, at, save.readings, delay); } else { assert log + [] == log; }
  }

  lemma SameLists(s: Sup, t: Sup, log: seq<Entry>, delay: real)
    requires Rooted(s, log, delay) && t.times == s.times
    ensures Rooted(t, log, delay)
  {}

  predicate Stays(e: Entry, times: Budgets, save: Save, now: real) {
    if e.Wrote? then
      && save.Saved?
      && e.disk == Persisted(Fresh(now).(times := times, muted := e.disk.muted), now, save.readings)
    else Steady(e)
  }

  lemma GuardStays(s: Sup, playing: bool, now: real, v: GuardView)
    ensures var g := Guard(s, playing, now, v);
      g.sup.times == s.times && forall i :: 0 <= i < |g.entries| ==> Stays(g.entries[i], s.times, v.save, now)
  {}

  lemma {:induction false} EntriesRooted(s: Sup, t: Sup, log: seq<Entry>, entries: seq<Entry>, save: Save, now: real,
                                         delay: real)
    requires Rooted(s, log, delay) && SwiftSave(save, now, delay) && t.times == s.times && 0.0 <= delay
    requires forall i :: 0 <= i < |entries| ==> Stays(entries[i], s.times, save, now)
    ensures Rooted(t, log + entries, delay)
  {
    hide Rooted, Persisted, SwiftReadings;
    if entries == [] {
      assert log + entries == log;
      SameLists(s, t, log, delay);
    } else {
      var front, last := entries[..|entries| - 1], entries[|entries| - 1];
      EntriesRooted(s, t, log, front, save, now, delay);
      assert log + entries == (log + front) + [last];
      if last.Wrote? {
        var u := Fresh(now).(times := s.times, muted := last.disk.muted);
        SameLists(t, u, log + front, delay);
        SavePush(u, log + front, now, save.readings, delay);
        SameLists(u, t, log + entries, delay);
      } else {
        SteadyPush(t, log + front, last, delay);
      }
    }
  }

  lemma GuardRooted(s: Sup, playing: bool, now: real, v: GuardView, log: seq<Entry>, delay: real)
    requires Rooted(s, log, delay) && SwiftSave(v.save, now, delay) && 0.0 <= delay
    ensures var g := Guard(s, playing, now, v); Rooted(g.sup, log + g.entries, delay)
  {
    hide Rooted;
    var g := Guard(s, playing, now, v);
    GuardStays(s, playing, now, v);
    EntriesRooted(s, g.sup, log, g.entries, v.save, now, delay);
  }

  lemma SpentRooted(s: Sup, f: Finding, now: real, save: Save, t: Sup, e: seq<Entry>, log: seq<Entry>, delay: real)
    requires Rooted(s, log, delay) && FaultCharge(s, f, now, save, t, e) && SwiftSave(save, now, delay) && 0.0 <= delay
    ensures Rooted(t, log + e, delay)
  {
    hide Rooted, Recent, Persisted, SwiftReadings;
    var c := ClassOf(f.kind);
    var kept := s.(times := s.times.With(c, Recent(s.times.At(c), now)));
    SteadyPush(s, log, e[0], delay);
    Pruned(s, log + [e[0]], c, now, delay);
    if |e| == 1 {
      assert log + e == log + [e[0]];
      if t.times == s.times { SameLists(s, t, log + e, delay); } else { SameLists(kept, t, log + e, delay); }
    } else {
      ChargePush(kept, log + [e[0]], c, now, delay);
      var charged := kept.(times := kept.times.With(c, kept.times.At(c) + [now]));
      var before := log + [e[0]] + [e[1]];
      if |e| == 2 {
        assert log + e == before;
        SameLists(charged, t, before, delay);
      } else {
        var u := t.(muted := s.muted);
        SameLists(charged, u, before, delay);
        SavePush(u, before, now, save.readings, delay);
        SteadyPush(u, before + [e[2]], e[3], delay);
        assert log + e == before + [e[2]] + [e[3]];
        SameLists(u, t, log + e, delay);
      }
    }
  }

  lemma FaultRooted(s: Sup, f: Finding, now: real, v: RepairView, log: seq<Entry>, delay: real)
    requires Rooted(s, log, delay) && SwiftSave(v.save, now, delay) && 0.0 <= delay
    ensures Rooted(Fault(s, f, now, v).sup, log + Fault(s, f, now, v).entries, delay)
  {
    hide Rooted, Fault, FaultCharge;
    var o := Fault(s, f, now, v);
    FaultCharges(s, f, now, v);
    SpentRooted(s, f, now, v.save, o.sup, o.entries, log, delay);
  }

  lemma RootedKept(now: real, v: TickView, at: real, save: Save, delay: real)
    requires SwiftSave(v.guard.save, now, delay) && SwiftSave(v.repair.save, now, delay) && SwiftSave(save, at, delay)
    requires 0.0 <= delay
    ensures TickKeeps((s, log) => Rooted(s, log, delay), (s, log) => Rooted(s, log, delay), now, v)
    ensures SaveKeeps((s, log) => Rooted(s, log, delay), (s, log) => Rooted(s, log, delay), at, save)
  {
    hide Known, Guard, Fault, FilesKnown, SwiftSave, WellMade;
    forall s, playing, log | Rooted(s, log, delay)
      ensures var g := Guard(s, playing, now, v.guard); Rooted(g.sup, log + g.entries, delay)
    {
      GuardRooted(s, playing, now, v.guard, log, delay);
    }
    forall s, f, log | Rooted(s, log, delay)
      ensures Rooted(Fault(s, f, now, v.repair).sup, log + Fault(s, f, now, v.repair).entries, delay)
    {
      FaultRooted(s, f, now, v.repair, log, delay);
    }
    forall s, log, e: Entry | Rooted(s, log, delay) && (e.Changed? || e.Quiet? || e.Calm?)
      ensures Rooted(s, log + [e], delay)
    {
      SteadyPush(s, log, e, delay);
    }
    forall s, log | Rooted(s, log, delay) ensures Rooted(s, log + SavedEntry(s, at, save), delay) {
      SavedRooted(s, log, at, save, delay);
    }
  }

  // ------------------------------------------------------------------------------ whole runs

  /** No save takes longer than the delay. */
  ghost predicate Swift(events: seq<Event>, delay: real) {
    forall i :: 0 <= i < |events| ==>
      match events[i]
      case Boot(_, _, _, saveAt, save, _) => SwiftSave(save, saveAt, delay)
      case Round(now, v, saveAt, save, _, _) =>
        SwiftSave(v.guard.save, now, delay) && SwiftSave(v.repair.save, now, delay) && SwiftSave(save, saveAt, delay)
      case Shutdown(now, save, _) => SwiftSave(save, now, delay)
  }

  lemma BootRooted(m: Machine, ev: Event, delay: real)
    requires ev.Boot? && m.alive.None? && ev.now <= ev.wall && m.disk == OnDisk(None, m.log)
    requires SwiftSave(ev.save, ev.saveAt, delay) && 0.0 <= delay && FilesKnown(m.log, delay)
    ensures var n := Step(m, ev);
      FilesKnown(n.log, delay) && (n.alive.Some? ==> Rooted(n.alive.value, n.log, delay))
  {
    hide FilesKnown, Charges, LagOf, SlackOf, Restamped, Traced, OnDisk, Persisted, Latest;
    var s, e := Restored(ev.zero, m.disk, ev.now, ev.wall), Began(ev.now, ev.wall);
    ChargesPush(m.log, e, delay);
    UnwrittenPush(m.log, e, delay);
    FileIsKnown(m.log, delay);
    forall c ensures Known(s.times.At(c), Charges(m.log + [e], c, delay), LagOf(m.log + [e]),
                           SlackOf(m.log + [e], delay))
    {
      RestoredTimes(ev.zero, m.log, ev.now, ev.wall, c);
      var charges, lag, slack := Charges(m.log, c, delay), LagOf(m.log), SlackOf(m.log, delay) + delay;
      assert Known(FileStamps(m.log, c), charges, lag, slack);
      var at: seq<nat> :| Traced(FileStamps(m.log, c), charges, at, lag, slack);
      var kept := RestoredIsKnown(FileStamps(m.log, c), charges, at, lag, slack, ev.now, ev.wall);
      assert Charges(m.log + [e], c, delay) == charges;
    }
    SavedRooted(s, m.log + [e], ev.saveAt, ev.save, delay);
    assert m.log + ([e] + SavedEntry(s, ev.saveAt, ev.save)) == m.log + [e] + SavedEntry(s, ev.saveAt, ev.save);
  }

  lemma FileIsKnown(log: seq<Entry>, delay: real)
    requires FilesKnown(log, delay)
    ensures FileKnown(log, delay)
  {
    assert FileKnown(log[..|log|], delay) && log[..|log|] == log;
  }

  lemma RoundRooted(m: Machine, ev: Event, delay: real)
    requires ev.Round? && m.alive.Some? && Rooted(m.alive.value, m.log, delay) && 0.0 <= delay
    requires SwiftSave(ev.view.guard.save, ev.now, delay) && SwiftSave(ev.view.repair.save, ev.now, delay)
    requires SwiftSave(ev.save, ev.saveAt, delay)
    ensures var n := Step(m, ev);
      FilesKnown(n.log, delay) && (n.alive.Some? ==> Rooted(n.alive.value, n.log, delay))
  {
    hide Known, FilesKnown, SwiftSave;
    RootedKept(ev.now, ev.view, ev.saveAt, ev.save, delay);
    forall log, n: nat | FilesKnown(log, delay) && n <= |log| ensures FilesKnown(log[..n], delay) {
      FilesPrefix(log, n, delay);
    }
    RoundKept((s, log) => Rooted(s, log, delay), (s, log) => Rooted(s, log, delay), log => FilesKnown(log, delay),
              m, ev);
  }

  lemma NothingCharged(delay: real)
    ensures FilesKnown([], delay)
  {
    forall c ensures Known(FileStamps([], c), Charges([], c, delay), 0.0, delay) {
      assert Traced([], [], [], 0.0, delay);
    }
  }

  /** In every run, crashes, restarts and failed writes anywhere: each attempt listed in memory,
      or on file at any time, is a charge of its own, made older by no more than restores lost
      since it was charged, and younger by no more than the save before each restore since then
      took, and the save of the file itself. */
  lemma {:induction false} ListedAreCharged(events: seq<Event>, delay: real)
    requires TimelyRun(events) && Swift(events, delay) && 0.0 <= delay
    ensures var m := Run(events);
      FilesKnown(m.log, delay) && (m.alive.Some? ==> Rooted(m.alive.value, m.log, delay))
  {
    hide Rooted, FilesKnown, SwiftSave, Step;
    if events == [] {
      NothingCharged(delay);
    } else {
      var before := events[..|events| - 1];
      var m, ev := Run(before), events[|events| - 1];
      ListedAreCharged(before, delay);
      DiskIsLastWritten(before);
      OneEvent(m, ev, delay);
    }
  }

  lemma OneEvent(m: Machine, ev: Event, delay: real)
    requires Timely(m, ev) && Swift([ev], delay) && 0.0 <= delay && m.disk == OnDisk(None, m.log)
    requires FilesKnown(m.log, delay) && (m.alive.Some? ==> Rooted(m.alive.value, m.log, delay))
    ensures var n := Step(m, ev);
      FilesKnown(n.log, delay) && (n.alive.Some? ==> Rooted(n.alive.value, n.log, delay))
  {
    hide FilesKnown, SwiftSave, Known, OnDisk;
    assert [ev][0] == ev;
    if ev.Boot? && m.alive.None? {
      BootRooted(m, ev, delay);
    } else if ev.Round? && m.alive.Some? {
      RoundRooted(m, ev, delay);
    } else if ev.Shutdown? && m.alive.Some? {
      SavedRooted(m.alive.value, m.log, ev.now, ev.save, delay);
    }
  }
}
