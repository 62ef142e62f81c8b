/** The desktop-stream mute: commanded only under a claim already on file, and never stranded. */
module Mutes {
  import opened Prelude
  import opened Findings
  import opened SupervisorSteps
  import opened SupervisorRuns

  /** The claim a restart would find. */
  function FileClaim(log: seq<Entry>): Option<int> {
    match OnDisk(None, log)
    case None => None
    case Some(d) => d.muted
  }

  /** A mute was issued, and it may have taken effect whatever the command then reported. */
  predicate IsMute(e: Entry) { e.Commanded? && e.on && e.issued }

  /** An unmute was reported as done. */
  predicate IsUnmute(e: Entry) { e.Commanded? && !e.on && e.result == Got(true) }

  /** The streams on which a mute of ours may still be in effect. A sole stream found muted in
      place of a vanished one inherits the mute, and found unmuted shows that it is gone; every
      other stream has vanished then. */
  function Outstanding(log: seq<Entry>): set<int> {
    if log == [] then {}
    else
      AfterEffect(Outstanding(log[..|log| - 1]), log[|log| - 1])
  }

  function AfterEffect(before: set<int>, e: Entry): set<int> {
    if IsMute(e) then before + {e.index}
    else if IsUnmute(e) then before - {e.index}
    else if e.Moved? then if before == {} then {} else {e.new_}
    else if e.Lost? then {}
    else before
  }

  /** The claim leads to the mute of x: it names x, or the stream that x replaced. */
  predicate Tied(claim: Option<int>, x: int, log: seq<Entry>) {
    claim.Some? && (x == claim.value || Moved(claim.value, x) in log)
  }

  ghost predicate AllTied(claim: Option<int>, log: seq<Entry>) {
    forall x :: x in Outstanding(log) ==> Tied(claim, x, log)
  }

  /** No stream was unmuted while the mute of another was in effect. */
  ghost predicate Prudent(log: seq<Entry>) {
    forall q: nat :: q < |log| && IsUnmute(log[q]) ==> Outstanding(log[..q]) <= {log[q].index}
  }

  /** At every moment, the claim on file leads to every outstanding mute; and a mute or unmute
      command names exactly the stream claimed on file when it is issued. */
  ghost predicate Covered(log: seq<Entry>) {
    && (forall p: nat :: p <= |log| && Prudent(log[..p]) ==> AllTied(FileClaim(log[..p]), log[..p]))
    && (forall p: nat :: p < |log| && log[p].Commanded? ==> FileClaim(log[..p]) == Some(log[p].index))
  }

  /** From the guard to the end of the round the claim in memory may be newer than the file's. */
  ghost predicate Claims(s: Sup, log: seq<Entry>) {
    Covered(log) && (Prudent(log) ==> AllTied(s.muted, log))
  }

  ghost predicate Synced(s: Sup, log: seq<Entry>) {
    Claims(s, log) && s.muted == FileClaim(log)
  }

  lemma LastEffect(log: seq<Entry>, e: Entry)
    ensures FileClaim(log + [e]) == if e.Wrote? then e.disk.muted else FileClaim(log)
    ensures Outstanding(log + [e]) == AfterEffect(Outstanding(log), e)
  {
    assert (log + [e])[..|log + [e]| - 1] == log;
  }

  lemma PrudentPush(log: seq<Entry>, e: Entry)
    ensures Prudent(log + [e]) <==> Prudent(log) && (IsUnmute(e) ==> Outstanding(log) <= {e.index})
  {
    var all := log + [e];
    assert all[..|log|] == log;
    forall q: nat | q < |log| ensures all[..q] == log[..q] {}
    if Prudent(all) {
      forall q: nat | q < |log| && IsUnmute(log[q]) ensures Outstanding(log[..q]) <= {log[q].index} {
        assert all[q] == log[q] && all[..q] == log[..q];
      }
    }
  }

  lemma CoveredPush(log: seq<Entry>, e: Entry)
    requires Covered(log)
    requires e.Commanded? ==> FileClaim(log) == Some(e.index)
    requires e.Moved? ==> FileClaim(log) == Some(e.old_)
    requires e.Wrote? && Prudent(log) ==> AllTied(e.disk.muted, log)
    ensures Covered(log + [e])
  {
    var all := log + [e];
    assert all[..|log|] == log && log[..|log|] == log && all[..|all|] == all;
    LastEffect(log, e);
    PrudentPush(log, e);
    hide Outstanding, FileClaim, Prudent;
    assert e in all;
    forall p: nat | p <= |all| && Prudent(all[..p]) ensures AllTied(FileClaim(all[..p]), all[..p]) {
      if p <= |log| { assert all[..p] == log[..p]; } else { assert all[..p] == all; }
    }
    forall p: nat | p < |all| && all[p].Commanded? ensures FileClaim(all[..p]) == Some(all[p].index) {
      if p < |log| { assert all[..p] == log[..p]; } else { assert all[..p] == log; }
    }
  }

  lemma CoveredPrefix(log: seq<Entry>, n: nat)
    requires Covered(log) && n <= |log|
    ensures Covered(log[..n])
  {
    forall p: nat | p <= n ensures log[..n][..p] == log[..p] {}
  }

  /** How an effect may change the claim in memory. */
  ghost predicate Follows(claim: Option<int>, next: Option<int>, log: seq<Entry>, e: Entry) {
    if e.Commanded? then
      FileClaim(log) == Some(e.index) && claim == Some(e.index) && (next == claim || (IsUnmute(e) && next == None))
    else if e.Moved? then FileClaim(log) == Some(e.old_) && claim == Some(e.old_) && next == Some(e.new_)
    else if e.Wrote? then e.disk.muted == claim && next == claim
    else e.Lost? || next == claim
  }

  lemma ClaimsPush(s: Sup, t: Sup, log: seq<Entry>, e: Entry)
    requires Claims(s, log) && Follows(s.muted, t.muted, log, e)
    ensures Claims(t, log + [e]) && FileClaim(log + [e]) == if e.Wrote? then e.disk.muted else FileClaim(log)
  {
    hide Covered, FileClaim, Prudent;
    LastEffect(log, e);
    PrudentPush(log, e);
    CoveredPush(log, e);
    assert e in log + [e];
  }

  /** With nothing claimed nothing is outstanding, so any claim will do. */
  lemma FreshClaim(s: Sup, log: seq<Entry>, claim: Option<int>)
    requires Claims(s, log) && s.muted.None?
    ensures Claims(s.(muted := claim), log)
  {}

  // ----------------------------------------------------------------------- the guard

  lemma HoldCovered(s: Sup, ownedMute: bool, conflict: bool, v: GuardView, log: seq<Entry>)
    requires s.muted.Some? && Synced(s, log)
    ensures var g := Hold(s, ownedMute, conflict, v); Claims(g.sup, log + g.entries)
  {
    hide Claims, FileClaim;
    var g := Hold(s, ownedMute, conflict, v);
    if g.entries == [] { assert log + g.entries == log; } else { ClaimsPush(s, g.sup, log, g.entries[0]); }
  }

  lemma ClaimCovered(s: Sup, streams: seq<Desktop>, conflict: bool, now: real, v: GuardView, log: seq<Entry>)
    requires s.muted.None? && Claims(s, log)
    ensures var g := Claim(s, streams, conflict, now, v); Claims(g.sup, log + g.entries)
  {
    hide Claims, FileClaim;
    var g := Claim(s, streams, conflict, now, v);
    FreshClaim(s, log, g.sup.muted);
    if g.entries == [] {
      assert log + g.entries == log;
    } else {
      ClaimsPush(g.sup, g.sup, log, g.entries[0]);
      ClaimsPush(g.sup, g.sup, log + [g.entries[0]], g.entries[1]);
      assert log + g.entries == log + [g.entries[0]] + [g.entries[1]];
    }
  }

  lemma AdoptCovered(s: Sup, replacement: Desktop, conflict: bool, now: real, v: GuardView, log: seq<Entry>)
    requires s.muted.Some? && Synced(s, log)
    ensures var g := Adopt(s, s.muted.value, replacement, conflict, now, v); Claims(g.sup, log + g.entries)
  {
    hide Claims, FileClaim;
    var moved := s.(muted := Some(replacement.index));
    var note := Moved(s.muted.value, replacement.index);
    ClaimsPush(s, moved, log, note);
    if v.save.Saved? {
      var write := Wrote(Persisted(moved, now, v.save.readings));
      ClaimsPush(moved, moved, log + [note], write);
      var held := Hold(moved, true, conflict, v);
      HoldCovered(moved, true, conflict, v, log + [note] + [write]);
      assert log + ([note, write] + held.entries) == log + [note] + [write] + held.entries;
    }
  }

  lemma GuardCovered(s: Sup, playing: bool, now: real, v: GuardView, log: seq<Entry>)
    requires Synced(s, log)
    ensures var g := Guard(s, playing, now, v); Claims(g.sup, log + g.entries)
  {
    hide Claims, FileClaim, Hold, Claim, Adopt;
    assert log + [] == log;
    if v.streams.Got? {
      var streams := v.streams.value;
      var inBridge := if |streams| == 1 then v.inBridge else Got(false);
      if inBridge.Got? {
        var conflict := playing || inBridge.value;
        if s.muted.None? {
          ClaimCovered(s, streams, conflict, now, v, log);
        } else if Owned(streams, s.muted.value).Some? {
          HoldCovered(s, Owned(streams, s.muted.value).value.mute, conflict, v, log);
        } else if |streams| == 1 {
          if streams[0].mute {
            AdoptCovered(s, streams[0], conflict, now, v, log);
          } else {
            var note, freed := Lost(s.muted.value), s.(muted := None);
            ClaimsPush(s, freed, log, note);
            ClaimCovered(freed, streams, conflict, now, v, log + [note]);
            var g := Claim(freed, streams, conflict, now, v);
            assert log + ([note] + g.entries) == log + [note] + g.entries;
          }
        }
      }
    }
  }

  // -------------------------------------------------------------------- the other parts

  predicate Silent(e: Entry, claim: Option<int>) {
    !e.Commanded? && !e.Moved? && !e.Lost? && (e.Wrote? ==> e.disk.muted == claim)
  }

  lemma {:induction false} SilentKeep(s: Sup, log: seq<Entry>, entries: seq<Entry>)
    requires Claims(s, log) && forall i :: 0 <= i < |entries| ==> Silent(entries[i], s.muted)
    ensures Claims(s, log + entries)
    ensures entries != [] && entries[|entries| - 1].Wrote? ==> FileClaim(log + entries) == s.muted
  {
    hide Claims, FileClaim;
    if entries == [] {
      assert log + entries == log;
    } else {
      var front, last := entries[..|entries| - 1], entries[|entries| - 1];
      SilentKeep(s, log, front);
      assert log + entries == (log + front) + [last];
      ClaimsPush(s, s, log + front, last);
    }
  }

  lemma FaultSilent(s: Sup, f: Finding, now: real, v: RepairView)
    ensures var o := Fault(s, f, now, v);
      o.sup.muted == s.muted && forall i :: 0 <= i < |o.entries| ==> Silent(o.entries[i], s.muted)
  {}

  lemma ClaimsKept(now: real, v: TickView, at: real, save: Save)
    ensures TickKeeps((s, log) => Synced(s, log), (s, log) => Claims(s, log), now, v)
    ensures SaveKeeps((s, log) => Synced(s, log), (s, log) => Claims(s, log), at, save)
  {
    forall s, playing, log | Synced(s, log)
      ensures Claims(Guard(s, playing, now, v.guard).sup, log + Guard(s, playing, now, v.guard).entries)
    {
      GuardCovered(s, playing, now, v.guard, log);
    }
    forall s, f, log | Claims(s, log)
      ensures Claims(Fault(s, f, now, v.repair).sup, log + Fault(s, f, now, v.repair).entries)
    {
      FaultSilent(s, f, now, v.repair);
      SilentKeep(s, log, Fault(s, f, now, v.repair).entries);
    }
    forall s, log, e: Entry | Claims(s, log) && (e.Changed? || e.Quiet? || e.Calm?) ensures Claims(s, log + [e]) {
      ClaimsPush(s, s, log, e);
    }
    forall s, log | Claims(s, log)
      ensures Claims(s, log + SavedEntry(s, at, save)) && (save.Saved? ==> Synced(s, log + SavedEntry(s, at, save)))
    {
      SilentKeep(s, log, SavedEntry(s, at, save));
    }
  }

  lemma BootClaims(m: Machine, ev: Event)
    requires ev.Boot? && m.alive.None? && Covered(m.log) && m.disk == OnDisk(None, m.log)
    ensures Covered(Step(m, ev).log)
    ensures Step(m, ev).alive.Some? ==> Synced(Step(m, ev).alive.value, Step(m, ev).log)
  {
    var s := Restored(ev.zero, m.disk, ev.now, ev.wall);
    assert m.log[..|m.log|] == m.log;
    assert s.muted == FileClaim(m.log);
    var done := [Began(ev.now, ev.wall)] + SavedEntry(s, ev.saveAt, ev.save);
    SilentKeep(s, m.log, done);
  }

  /** In every run, with crashes and failed writes anywhere, including between the claim and
      the mute: commands go only to the stream claimed on file, and as long as no stream was
      unmuted for another, every outstanding mute has a claim on file that leads to it. */
  lemma {:induction false} MutesAreClaimed(events: seq<Event>)
    ensures Covered(Run(events).log)
    ensures Run(events).alive.Some? ==> Synced(Run(events).alive.value, Run(events).log)
  {
    if events != [] {
      var before := events[..|events| - 1];
      var m, ev := Run(before), events[|events| - 1];
      MutesAreClaimed(before);
      DiskIsLastWritten(before);
      if ev.Boot? && m.alive.None? {
        BootClaims(m, ev);
      } else if ev.Round? && m.alive.Some? {
        ClaimsKept(ev.now, ev.view, ev.saveAt, ev.save);
        forall log, n: nat | Covered(log) && n <= |log| ensures Covered(log[..n]) { CoveredPrefix(log, n); }
        RoundKept((s, log) => Synced(s, log), (s, log) => Claims(s, log), log => Covered(log), m, ev);
      } else if ev.Shutdown? && m.alive.Some? {
        SilentKeep(m.alive.value, m.log, SavedEntry(m.alive.value, ev.now, ev.save));
      }
    }
  }

  /** A process that starts while a mute is outstanding starts with the claim that undoes it. */
  lemma RestartReclaims(events: seq<Event>, zero: real, now: real, wall: real, x: int)
    requires Prudent(Run(events).log) && x in Outstanding(Run(events).log)
    ensures Tied(Restored(zero, Run(events).disk, now, wall).muted, x, Run(events).log)
  {
    hide Run, Prudent, Outstanding;
    MutesAreClaimed(events);
    DiskIsLastWritten(events);
    var log := Run(events).log;
    assert log[..|log|] == log;
    assert AllTied(FileClaim(log[..|log|]), log[..|log|]);
  }

  // ------------------------------------------------------------------ claims and releases

  /** A claim is new only for the sole desktop stream: unmuted and in conflict when it is a
      fresh one, muted and replacing the vanished claimed stream when it follows that one. */
  lemma ClaimsAreDeserved(s: Sup, playing: bool, now: real, v: GuardView)
    ensures var t := Guard(s, playing, now, v).sup;
      t.muted.Some? && t.muted != s.muted ==>
        && v.streams.Got? && |v.streams.value| == 1 && v.streams.value[0].index == t.muted.value
        && v.inBridge.Got?
        && (v.streams.value[0].mute ==> s.muted.Some?)
        && (!v.streams.value[0].mute ==> playing || v.inBridge.value)
  {}

  /** The stream to release: the claimed one, or the sole one that replaced it. */
  predicate Target(claim: int, streams: seq<Desktop>, x: int) {
    if Owned(streams, claim).Some? then x == claim else |streams| == 1 && x == streams[0].index
  }

  predicate Unmutes(x: int, v: MuteView) {
    && v.before.Got? && Count(v.before.value, x) == 1 && v.command.Got?
    && v.after.Got? && exists d :: d in v.after.value && d.index == x && !d.mute
  }

  /** No stranded mute: once no conflict remains and the unmute works, one tick leaves the
      claimed stream (or its replacement) unmuted and the claim cleared, whatever the route
      checks, reconciliation, probe and repair of that tick then do. */
  lemma NoStrandedMute(s: Sup, now: real, v: TickView, x: int)
    requires v.mode.Got? && v.playing == Got(false)
    requires if now >= s.nextInfrastructure then Infrastructure(v.infrastructure) == Got(None)
      else s.infrastructureFault.None?
    requires s.muted.Some? && v.guard.streams.Got? && Target(s.muted.value, v.guard.streams.value, x)
    requires |v.guard.streams.value| == 1 ==> v.guard.inBridge == Got(false)
    requires v.guard.save.Saved? || x == s.muted.value || !v.guard.streams.value[0].mute
    requires Unmutes(x, v.guard.mute)
    ensures var o := Tick(s, now, v);
      && o.sup.muted == None
      && ((exists e :: e in o.entries && IsUnmute(e) && e.index == x)
          || exists d :: d in v.guard.streams.value && d.index == x && !d.mute)
  {
    hide Infrastructure, RouteFault, Fault, Playback, Count, Persisted;
    var t := if now >= s.nextInfrastructure
             then s.(infrastructureFault := None, nextInfrastructure := now + PROBE_PERIOD) else s;
    var g := Guard(t, false, now, v.guard);
    assert SetMute(x, false, v.guard.mute) == Got(true);
    assert g.sup.muted == None;
    var streams := v.guard.streams.value;
    if Owned(streams, s.muted.value).None? && !streams[0].mute {
      assert streams[0] in streams;
    } else {
      assert g.entries[|g.entries| - 1] == MuteEntry(x, false, v.guard.mute);
    }
    match RouteFault(v) {
      case Some(f) => FaultSilent(g.sup, f, now, v.repair);
      case None => PlaybackSilent(g.sup, false, v.mode.value, now, v);
    }
  }

  lemma PlaybackSilent(s: Sup, playing: bool, mode: Mode, now: real, v: TickView)
    ensures Playback(s, playing, mode, now, v).sup.muted == s.muted
  {}

  /** Whether the looks at the streams show a conflict: both sources can be heard. A sole stream
      may also be heard through the bridge. */
  predicate Conflicts(playing: bool, v: GuardView) {
    v.streams.Got? && if |v.streams.value| == 1 then v.inBridge.Got? && (playing || v.inBridge.value) else playing
  }

  predicate AtPeace(playing: bool, v: GuardView) {
    v.streams.Got? && !playing && (|v.streams.value| == 1 ==> v.inBridge == Got(false))
  }

  /** The claimed stream is present and can be heard; or the claim is void and the sole stream
      can be heard and its claim be written. */
  predicate ToMute(claim: Option<int>, v: GuardView, x: int)
    requires v.streams.Got?
  {
    var streams := v.streams.value;
    if claim.Some? && Owned(streams, claim.value).Some? then
      x == claim.value && !Owned(streams, x).value.mute
    else streams == [Desktop(x, false)] && v.save.Saved?
  }

  /** The claimed stream is present; or the sole stream replaced it muted and its claim can be
      written. */
  predicate ToUnmute(claim: Option<int>, v: GuardView, x: int)
    requires v.streams.Got?
  {
    && claim.Some?
    && if Owned(v.streams.value, claim.value).Some? then x == claim.value
       else v.streams.value == [Desktop(x, true)] && v.save.Saved?
  }

  /** Exactly when a guard step calls for a mute or an unmute, and of which stream; it is the
      only call, and the last thing the step does. */
  lemma CallsExactlyWhen(s: Sup, playing: bool, now: real, v: GuardView, x: int, on: bool)
    ensures var entries := Guard(s, playing, now, v).entries;
      && ((exists e :: e in entries && e.Commanded? && e.on == on && e.index == x) <==>
          if on then Conflicts(playing, v) && ToMute(s.muted, v, x) else AtPeace(playing, v) && ToUnmute(s.muted, v, x))
      && (forall i :: 0 <= i < |entries| && entries[i].Commanded? ==>
            i == |entries| - 1 && entries[i] == MuteEntry(entries[i].index, entries[i].on, v.mute))
  {
    hide Owned, Count, SetMute, Issues, Persisted;
    var entries := Guard(s, playing, now, v).entries;
    if v.streams.Got? {
      var streams := v.streams.value;
      if |streams| == 1 { assert streams == [streams[0]]; }
      if AtPeace(playing, v) || Conflicts(playing, v) {
        assert forall e :: e in entries && e.Commanded? ==> e == entries[|entries| - 1];
      }
    }
  }

  predicate Mutes(x: int, v: MuteView) {
    && v.before.Got? && Count(v.before.value, x) == 1 && v.command.Got?
    && v.after.Got? && exists d :: d in v.after.value && d.index == x && d.mute
  }

  /** In a conflict the stream to silence, the claimed one or else the sole one, is claimed and
      muted after one tick, if the mute works, whatever faults end that tick. A sole stream that
      the user muted is left to the user. The early write matters only for a new claim. */
  lemma NoConflictIsHeard(s: Sup, now: real, v: TickView, x: int)
    requires v.mode.Got? && v.playing.Got? && Conflicts(v.playing.value, v.guard)
    requires if now >= s.nextInfrastructure then Infrastructure(v.infrastructure) == Got(None)
      else s.infrastructureFault.None?
    requires var streams := v.guard.streams.value;
      if s.muted.Some? then Target(s.muted.value, streams, x) else streams == [Desktop(x, false)]
    requires v.guard.save.Saved? || s.muted == Some(x) || v.guard.streams.value[0].mute
    requires Mutes(x, v.guard.mute)
    ensures var o := Tick(s, now, v);
      && o.sup.muted == Some(x)
      && ((exists e :: e in o.entries && e.Commanded? && e.on && e.index == x && e.result == Got(true))
          || exists d :: d in v.guard.streams.value && d.index == x && d.mute)
  {
    hide Infrastructure, RouteFault, Fault, Playback, Count, Persisted;
    var t := if now >= s.nextInfrastructure
             then s.(infrastructureFault := None, nextInfrastructure := now + PROBE_PERIOD) else s;
    var g := Guard(t, v.playing.value, now, v.guard);
    assert SetMute(x, true, v.guard.mute) == Got(true);
    assert g.sup.muted == Some(x);
    var streams := v.guard.streams.value;
    if ToMute(s.muted, v.guard, x) {
      assert g.entries[|g.entries| - 1] == MuteEntry(x, true, v.guard.mute);
    } else if s.muted.Some? && Owned(streams, s.muted.value).Some? {
      assert Owned(streams, x).value in streams;
    } else {
      assert streams[0] in streams && streams[0].mute;
    }
    match RouteFault(v) {
      case Some(f) => FaultSilent(g.sup, f, now, v.repair);
      case None => PlaybackSilent(g.sup, v.playing.value, v.mode.value, now, v);
    }
  }

  /** Exactly when the guard lets go of a claim without a conflict. */
  lemma ReleasedExactlyWhen(s: Sup, now: real, v: GuardView)
    requires s.muted.Some? && v.streams.Got? && (|v.streams.value| == 1 ==> v.inBridge == Got(false))
    ensures var streams := v.streams.value;
      Guard(s, false, now, v).sup.muted.None? <==>
        exists x :: Target(s.muted.value, streams, x)
          && ((SetMute(x, false, v.mute) == Got(true) && (x == s.muted.value || v.save.Saved?))
              || (Owned(streams, s.muted.value).None? && !streams[0].mute))
  {
    var streams := v.streams.value;
    if Owned(streams, s.muted.value).Some? {
      assert Target(s.muted.value, streams, s.muted.value);
    } else if |streams| == 1 {
      assert Target(s.muted.value, streams, streams[0].index);
    }
  }

  /** A mute or unmute reported as done named the one stream with that index, and a later look
      found it so. */
  lemma {:induction false} DoneIsSeen(index: int, mute: bool, v: MuteView)
    requires SetMute(index, mute, v) == Got(true)
    ensures v.before.Got? && v.after.Got? && exists d :: d in v.after.value && d.index == index && d.mute == mute
    ensures exists i :: 0 <= i < |v.before.value| && v.before.value[i].index == index
                        && forall j :: 0 <= j < |v.before.value| && v.before.value[j].index == index ==> j == i
  {
    var i := TheOnlyOne(v.before.value, index);
  }

  lemma {:induction false} TheOnlyOne(streams: seq<Desktop>, index: int) returns (i: nat)
    requires Count(streams, index) == 1
    ensures i < |streams| && streams[i].index == index
    ensures forall j :: 0 <= j < |streams| && streams[j].index == index ==> j == i
  {
    var last := |streams| - 1;
    if streams[last].index == index {
      i := last;
      NoneOf(streams[..last], index);
      assert forall j :: 0 <= j < last ==> streams[j] == streams[..last][j];
    } else {
      i := TheOnlyOne(streams[..last], index);
      assert forall j :: 0 <= j < last ==> streams[j] == streams[..last][j];
    }
  }

  lemma {:induction false} NoneOf(streams: seq<Desktop>, index: int)
    requires Count(streams, index) == 0
    ensures forall j :: 0 <= j < |streams| ==> streams[j].index != index
  {
    if streams != [] {
      NoneOf(streams[..|streams| - 1], index);
      assert forall j :: 0 <= j < |streams| - 1 ==> streams[j] == streams[..|streams| - 1][j];
    }
  }

  // --------------------------------------------------- when an outstanding mute is lost

  lemma {:induction false} PrudentKeep(log: seq<Entry>, entries: seq<Entry>)
    requires Prudent(log) && forall i :: 0 <= i < |entries| ==> !IsUnmute(entries[i])
    ensures Prudent(log + entries)
  {
    if entries == [] {
      assert log + entries == log;
    } else {
      var front, last := entries[..|entries| - 1], entries[|entries| - 1];
      PrudentKeep(log, front);
      PrudentPush(log + front, last);
      assert log + entries == (log + front) + [last];
    }
  }

  /** The guard is about to unmute the stream of the claim, and the mute of another one is
      outstanding: nothing conflicts, the claimed stream is there, and unmuting it will do. */
  ghost predicate Forsakes(s: Sup, log: seq<Entry>, playing: bool, v: GuardView) {
    && s.muted.Some? && v.streams.Got? && Owned(v.streams.value, s.muted.value).Some? && !playing
    && (|v.streams.value| == 1 ==> v.inBridge == Got(false))
    && SetMute(s.muted.value, false, v.mute) == Got(true)
    && exists x :: x in Outstanding(log) && x != s.muted.value
  }

  lemma PrudentHold(s: Sup, ownedMute: bool, conflict: bool, v: GuardView, log: seq<Entry>)
    requires s.muted.Some? && Prudent(log)
    requires !conflict && SetMute(s.muted.value, false, v.mute) == Got(true) ==> Outstanding(log) <= {s.muted.value}
    ensures Prudent(log + Hold(s, ownedMute, conflict, v).entries)
  {
    var e := Hold(s, ownedMute, conflict, v).entries;
    if e == [] {
      assert log + e == log;
    } else {
      hide Prudent, Outstanding;
      PrudentPush(log, e[0]);
      assert e == [e[0]];
    }
  }

  lemma PrudentAdopt(s: Sup, replacement: Desktop, conflict: bool, now: real, v: GuardView, log: seq<Entry>)
    requires s.muted.Some? && Prudent(log)
    ensures Prudent(log + Adopt(s, s.muted.value, replacement, conflict, now, v).entries)
  {
    hide Prudent, Outstanding;
    var moved := s.(muted := Some(replacement.index));
    var note := Moved(s.muted.value, replacement.index);
    LastEffect(log, note);
    PrudentPush(log, note);
    if v.save.Saved? {
      var write := Wrote(Persisted(moved, now, v.save.readings));
      LastEffect(log + [note], write);
      PrudentPush(log + [note], write);
      var held := Hold(moved, true, conflict, v);
      PrudentHold(moved, true, conflict, v, log + [note] + [write]);
      assert log + ([note, write] + held.entries) == log + [note] + [write] + held.entries;
    }
  }

  lemma PrudentGuard(s: Sup, playing: bool, now: real, v: GuardView, log: seq<Entry>)
    requires Prudent(log) && !Forsakes(s, log, playing, v)
    ensures Prudent(log + Guard(s, playing, now, v).entries)
  {
    var e := Guard(s, playing, now, v).entries;
    if exists i :: 0 <= i < |e| && IsUnmute(e[i]) {
      hide Hold, Adopt, Prudent;
      var streams := v.streams.value;
      var conflict := playing || (|streams| == 1 && v.inBridge.value);
      var owned := Owned(streams, s.muted.value);
      if owned.Some? {
        if !conflict && SetMute(s.muted.value, false, v.mute) == Got(true) {
          assert !playing && (|streams| == 1 ==> v.inBridge == Got(false));
          forall x | x in Outstanding(log) ensures x == s.muted.value {}
        }
        PrudentHold(s, owned.value.mute, conflict, v, log);
      } else {
        PrudentAdopt(s, streams[0], conflict, now, v, log);
      }
    } else {
      PrudentKeep(log, e);
    }
  }

  /** Exactly when one step of the guard leaves a mute that its claim no longer leads to, told
      before it: when it is about to unmute the claimed stream for another one. */
  lemma LosesExactlyWhen(s: Sup, playing: bool, now: real, v: GuardView, log: seq<Entry>)
    requires Synced(s, log) && Prudent(log)
    ensures var g := Guard(s, playing, now, v);
      !AllTied(g.sup.muted, log + g.entries) <==> Forsakes(s, log, playing, v)
  {
    var g := Guard(s, playing, now, v);
    if Forsakes(s, log, playing, v) {
      ForsakenIsLost(s, playing, now, v, log);
    } else {
      PrudentGuard(s, playing, now, v, log);
      GuardCovered(s, playing, now, v, log);
    }
  }

  lemma ForsakenIsLost(s: Sup, playing: bool, now: real, v: GuardView, log: seq<Entry>)
    requires Forsakes(s, log, playing, v)
    ensures var g := Guard(s, playing, now, v); !AllTied(g.sup.muted, log + g.entries)
  {
    var g := Guard(s, playing, now, v);
    var e := MuteEntry(s.muted.value, false, v.mute);
    assert g.entries == [e] && g.sup.muted == None;
    LastEffect(log, e);
    var x :| x in Outstanding(log) && x != s.muted.value;
    assert x in Outstanding(log + g.entries) && !Tied(g.sup.muted, x, log + g.entries);
  }

  // ------------------------------------------------ runs in which no index comes back

  /** No call to unmute, whatever became of it, went to one stream for another. */
  ghost predicate Alone(log: seq<Entry>) {
    forall q: nat :: q < |log| && log[q].Commanded? && !log[q].on ==> Outstanding(log[..q]) <= {log[q].index}
  }

  lemma AloneIsPrudent(log: seq<Entry>)
    requires Alone(log)
    ensures Prudent(log)
  {}

  lemma AlonePush(log: seq<Entry>, e: Entry)
    ensures Alone(log + [e]) <==> Alone(log) && (e.Commanded? && !e.on ==> Outstanding(log) <= {e.index})
  {
    var all := log + [e];
    assert all[..|log|] == log && all[|log|] == e;
    forall q: nat | q < |log| ensures all[..q] == log[..q] && all[q] == log[q] {}
    if Alone(all) {
      forall q: nat | q < |log| && log[q].Commanded? && !log[q].on ensures Outstanding(log[..q]) <= {log[q].index} {
        assert all[..q] == log[..q];
      }
    }
  }

  /** No tick sees a desktop stream whose index the claim has left for a replacement. */
  ghost predicate NoneReturns(events: seq<Event>) {
    forall n: nat :: n < |events| && events[n].Round? ==> NoneBack(events[n].view.guard.streams, Run(events[..n]).log)
  }

  predicate NoneBack(streams: Answer<seq<Desktop>>, log: seq<Entry>) {
    streams.Got? ==> forall e :: e in log && e.Moved? ==> forall d :: d in streams.value ==> d.index != e.old_
  }

  lemma {:induction false} AloneKeep(log: seq<Entry>, entries: seq<Entry>)
    requires Alone(log) && Speechless(entries)
    ensures Alone(log + entries)
  {
    if entries == [] {
      assert log + entries == log;
    } else {
      var front, last := entries[..|entries| - 1], entries[|entries| - 1];
      AloneKeep(log, front);
      AlonePush(log + front, last);
      assert log + entries == (log + front) + [last];
    }
  }

  lemma AloneHold(s: Sup, ownedMute: bool, conflict: bool, v: GuardView, log: seq<Entry>)
    requires s.muted.Some? && Alone(log) && Outstanding(log) <= {s.muted.value}
    ensures Alone(log + Hold(s, ownedMute, conflict, v).entries)
  {
    var e := Hold(s, ownedMute, conflict, v).entries;
    if e == [] {
      assert log + e == log;
    } else {
      hide Alone, Outstanding;
      AlonePush(log, e[0]);
      assert e == [e[0]];
    }
  }

  lemma AloneAdopt(s: Sup, replacement: Desktop, conflict: bool, now: real, v: GuardView, log: seq<Entry>)
    requires s.muted.Some? && Alone(log)
    ensures Alone(log + Adopt(s, s.muted.value, replacement, conflict, now, v).entries)
  {
    hide Alone, Outstanding;
    var moved := s.(muted := Some(replacement.index));
    var note := Moved(s.muted.value, replacement.index);
    LastEffect(log, note);
    AlonePush(log, note);
    if v.save.Saved? {
      var write := Wrote(Persisted(moved, now, v.save.readings));
      LastEffect(log + [note], write);
      AlonePush(log + [note], write);
      var held := Hold(moved, true, conflict, v);
      AloneHold(moved, true, conflict, v, log + [note] + [write]);
      assert log + ([note, write] + held.entries) == log + [note] + [write] + held.entries;
    }
  }

  lemma AloneClaim(s: Sup, streams: seq<Desktop>, conflict: bool, now: real, v: GuardView, log: seq<Entry>)
    requires Alone(log)
    ensures Alone(log + Claim(s, streams, conflict, now, v).entries)
  {
    hide Alone;
    var e := Claim(s, streams, conflict, now, v).entries;
    if e == [] {
      assert log + e == log;
    } else {
      AlonePush(log, e[0]);
      AlonePush(log + [e[0]], e[1]);
      assert log + e == log + [e[0]] + [e[1]];
    }
  }

  lemma FaithfulGuard(s: Sup, playing: bool, now: real, v: GuardView, log: seq<Entry>)
    requires Synced(s, log) && Alone(log) && NoneBack(v.streams, log)
    ensures Alone(log + Guard(s, playing, now, v).entries)
  {
    AloneIsPrudent(log);
    if s.muted.Some? && v.streams.Got? && Owned(v.streams.value, s.muted.value).Some? {
      forall x | x in Outstanding(log) ensures x == s.muted.value { assert Tied(s.muted, x, log); }
    }
    hide Hold, Adopt, Claim, Alone, Synced, Outstanding;
    assert log + [] == log;
    if v.streams.Got? && (|v.streams.value| == 1 ==> v.inBridge.Got?) {
      var streams := v.streams.value;
      var conflict := playing || (|streams| == 1 && v.inBridge.value);
      if s.muted.None? {
        AloneClaim(s, streams, conflict, now, v, log);
      } else if Owned(streams, s.muted.value).Some? {
        AloneHold(s, Owned(streams, s.muted.value).value.mute, conflict, v, log);
      } else if |streams| == 1 {
        AloneAdopt(s, streams[0], conflict, now, v, log);
        var note, freed := Lost(s.muted.value), s.(muted := None);
        AlonePush(log, note);
        AloneClaim(freed, streams, conflict, now, v, log + [note]);
        assert log + ([note] + Claim(freed, streams, conflict, now, v).entries)
            == log + [note] + Claim(freed, streams, conflict, now, v).entries;
      }
    }
  }

  predicate Speechless(entries: seq<Entry>) { forall i :: 0 <= i < |entries| ==> !entries[i].Commanded? }

  lemma PlaybackSpeechless(s: Sup, playing: bool, mode: Mode, now: real, v: TickView)
    ensures Speechless(Playback(s, playing, mode, now, v).entries)
  {
    var t := if v.reconcile == Got(true) then AfterChange(s, now) else s;
    if Probe(v.probe, mode).Got? {
      FaultSilent(t.(nextProbe := now + PROBE_PERIOD), Probe(v.probe, mode).value, now, v.repair);
    }
    hide Fault, Probe;
  }

  lemma AfterGuardSpeechless(s: Sup, playing: bool, mode: Mode, now: real, v: TickView)
    ensures Speechless(AfterGuard(s, playing, mode, now, v).entries)
  {
    if RouteFault(v).Some? { FaultSilent(s, RouteFault(v).value, now, v.repair); }
    PlaybackSpeechless(s, playing, mode, now, v);
    hide RouteFault, Fault, Playback;
  }

  /** A tick commands the stream in its guard step only. */
  lemma AloneObserving(s: Sup, mode: Mode, now: real, v: TickView, log: seq<Entry>)
    requires Synced(s, log) && Alone(log) && NoneBack(v.guard.streams, log)
    ensures Alone(log + AfterInfrastructure(s, mode, now, v).entries)
  {
    hide Guard, AfterGuard, Alone, Synced;
    assert log + [] == log;
    if v.playing.Got? {
      var g := Guard(s, v.playing.value, now, v.guard);
      var rest := AfterGuard(g.sup, v.playing.value, mode, now, v).entries;
      FaithfulGuard(s, v.playing.value, now, v.guard, log);
      AfterGuardSpeechless(g.sup, v.playing.value, mode, now, v);
      AloneKeep(log + g.entries, rest);
      assert log + (g.entries + rest) == log + g.entries + rest;
    }
  }

  lemma AloneTick(s: Sup, now: real, v: TickView, log: seq<Entry>)
    requires Synced(s, log) && Alone(log) && NoneBack(v.guard.streams, log)
    ensures Alone(log + Tick(s, now, v).entries)
  {
    assert log + [] == log;
    var found := if Infrastructure(v.infrastructure).Got? then Infrastructure(v.infrastructure).value else None;
    var t := if now >= s.nextInfrastructure
             then s.(infrastructureFault := found, nextInfrastructure := now + PROBE_PERIOD) else s;
    assert Synced(t, log);
    hide Infrastructure, AfterInfrastructure, Fault, Alone, Synced;
    if v.mode.Got? {
      AloneObserving(t, v.mode.value, now, v, log);
      if found.Some? {
        FaultSilent(t, found.value, now, v.repair);
        AloneKeep(log, Fault(t, found.value, now, v.repair).entries);
      }
    }
  }

  lemma AlonePrefix(log: seq<Entry>, n: nat)
    requires Alone(log) && n <= |log|
    ensures Alone(log[..n])
  {
    forall q: nat | q < n && log[q].Commanded? && !log[q].on ensures Outstanding(log[..n][..q]) <= {log[q].index} {
      assert log[..n][..q] == log[..q];
    }
  }

  /** As long as no index comes back, every mute that may still be in effect is claimed. */
  lemma {:induction false} NoMuteIsLost(events: seq<Event>)
    requires NoneReturns(events)
    ensures Alone(Run(events).log) && AllTied(FileClaim(Run(events).log), Run(events).log)
  {
    MutesAreClaimed(events);
    if events != [] {
      var before := events[..|events| - 1];
      var m, ev := Run(before), events[|events| - 1];
      forall n: nat | n < |before| ensures before[..n] == events[..n] {}
      NoMuteIsLost(before);
      MutesAreClaimed(before);
      hide Alone, Synced, Covered;
      if ev.Boot? && m.alive.None? {
        var s := Restored(ev.zero, m.disk, ev.now, ev.wall);
        AloneKeep(m.log, [Began(ev.now, ev.wall)] + SavedEntry(s, ev.saveAt, ev.save));
      } else if ev.Round? && m.alive.Some? {
        AloneRound(m, ev);
      } else if ev.Shutdown? && m.alive.Some? {
        AloneKeep(m.log, SavedEntry(m.alive.value, ev.now, ev.save));
      }
    } else {
      NothingLost();
    }
    CoveredNow(Run(events).log);
  }

  lemma NothingLost()
    ensures Alone([])
  {}

  lemma CoveredNow(log: seq<Entry>)
    requires Covered(log) && Alone(log)
    ensures AllTied(FileClaim(log), log)
  {
    assert log[..|log|] == log;
  }

  lemma AloneRound(m: Machine, ev: Event)
    requires ev.Round? && m.alive.Some? && Synced(m.alive.value, m.log) && Alone(m.log)
    requires NoneBack(ev.view.guard.streams, m.log)
    ensures Alone(m.log + RoundDone(m.alive.value, ev))
  {
    hide Alone, Synced, Tick;
    var s := m.alive.value;
    var o := Tick(s, ev.now, ev.view);
    var tail := SavedEntry(AfterTick(o), ev.saveAt, ev.save);
    AloneTick(s, ev.now, ev.view, m.log);
    AloneKeep(m.log + o.entries, tail);
    assert m.log + o.entries + tail == m.log + RoundEntries(s, ev);
    var all, done := m.log + RoundEntries(s, ev), RoundDone(s, ev);
    AlonePrefix(all, |m.log| + |done|);
    assert all[..|m.log| + |done|] == m.log + done;
  }

  // ----------------------------------------------------------------- whose mute it is

  predicate Clears(e: Entry) { e.Lost? || IsUnmute(e) }

  /** A mute was issued, and neither an unmute nor the loss of the stream has ended it. */
  ghost predicate OwnMute(log: seq<Entry>) {
    exists q: nat :: q < |log| && IsMute(log[q]) && forall k :: q < k < |log| ==> !Clears(log[k])
  }

  lemma {:induction false} OwnMuteIsOutstanding(log: seq<Entry>)
    requires Prudent(log)
    ensures Outstanding(log) != {} <==> OwnMute(log)
  {
    if log != [] {
      var front, last := log[..|log| - 1], log[|log| - 1];
      assert log == front + [last];
      PrudentPush(front, last);
      OwnMuteIsOutstanding(front);
      OwnMutePush(front, last);
      assert IsMute(last) ==> last.index in Outstanding(log);
    }
  }

  lemma OwnMutePush(log: seq<Entry>, e: Entry)
    ensures OwnMute(log + [e]) <==> IsMute(e) || (OwnMute(log) && !Clears(e))
  {
    var all := log + [e];
    assert all[|log|] == e && forall k :: 0 <= k < |log| ==> all[k] == log[k];
    if OwnMute(log) && !Clears(e) {
      var q: nat :| q < |log| && IsMute(log[q]) && forall k :: q < k < |log| ==> !Clears(log[k]);
      assert all[q] == log[q];
    }
    if OwnMute(all) {
      var q: nat :| q < |all| && IsMute(all[q]) && forall k :: q < k < |all| ==> !Clears(all[k]);
      if q < |log| {
        assert !Clears(all[|log|]);
        assert forall k :: q < k < |log| ==> !Clears(all[k]);
      }
    }
  }

  /** Whose mute a call to unmute is for: in every run it names the stream claimed on file, and
      while no other stream's mute is outstanding, the mute it is to end is the supervisor's
      exactly if one was issued and not ended since. Otherwise it is somebody else's. */
  lemma {:induction false} UnmutesItsOwnExactlyWhen(events: seq<Event>, p: nat)
    requires var log := Run(events).log; p < |log| && log[p].Commanded? && !log[p].on && Prudent(log[..p])
    requires var log := Run(events).log; Outstanding(log[..p]) <= {log[p].index}
    ensures var log := Run(events).log;
      && FileClaim(log[..p]) == Some(log[p].index)
      && (log[p].index in Outstanding(log[..p]) <==> OwnMute(log[..p]))
  {
    hide Run, Outstanding, FileClaim, OwnMute;
    MutesAreClaimed(events);
    OwnMuteIsOutstanding(Run(events).log[..p]);
  }

  /** The same without a condition on the log, for runs in which no index comes back. */
  lemma {:induction false} UnmutesItsOwnInRuns(events: seq<Event>, p: nat)
    requires NoneReturns(events)
    requires var log := Run(events).log; p < |log| && log[p].Commanded? && !log[p].on
    ensures var log := Run(events).log; log[p].index in Outstanding(log[..p]) <==> OwnMute(log[..p])
  {
    hide Run, Outstanding, OwnMute;
    NoMuteIsLost(events);
    AlonePrefix(Run(events).log, p);
    AloneIsPrudent(Run(events).log[..p]);
    UnmutesItsOwnExactlyWhen(events, p);
  }
}
