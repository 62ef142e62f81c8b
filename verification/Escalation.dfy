/** Scoped recovery: which containers a repair may touch, and how it escalates. */
module Escalation {
  import opened Prelude
  import opened Findings
  import opened SupervisorSteps
  import opened SupervisorRuns
  import opened RepairBudgets

  /** What ends an escalation. */
  predicate Resets(e: Entry) {
    e == Calm(Verified) || e.Quiet? || e.Began? || IsRepair(e, Route) || IsRepair(e, Pcm)
  }

  /** Container and transport repairs since the last reset. */
  function Escalations(log: seq<Entry>): nat {
    if log == [] then 0
    else
      var front, last := log[..|log| - 1], log[|log| - 1];
      if Resets(last) then 0 else Escalations(front) + if IsRepair(last, Transport) then 1 else 0
  }

  /** The attempt's stamp is in the file written just before the repair. */
  predicate OnFile(d: Disk, c: Class, at: real) {
    exists i :: 0 <= i < |d.stamps.At(c)| && d.stamps.At(c)[i] >= at
  }

  predicate Justified(front: seq<Entry>, e: Entry) {
    e.Tried? ==>
      && WellMade(e.finding) && !WaitOnly(e.finding.kind)
      && e.stage == Escalations(front)
      && front != [] && front[|front| - 1].Wrote?
      && OnFile(front[|front| - 1].disk, ClassOf(e.finding.kind), e.at)
  }

  ghost predicate Scoped(log: seq<Entry>) {
    forall p: nat :: p < |log| ==> Justified(log[..p], log[p])
  }

  ghost predicate Staged(s: Sup, log: seq<Entry>) {
    s.stage == Escalations(log) && Scoped(log)
  }

  lemma ScopedPush(log: seq<Entry>, e: Entry)
    requires Scoped(log) && Justified(log, e)
    ensures Scoped(log + [e])
    ensures Escalations(log + [e])
            == if Resets(e) then 0 else Escalations(log) + if IsRepair(e, Transport) then 1 else 0
  {
    var all := log + [e];
    assert all[..|all| - 1] == log;
    forall p: nat | p < |all| ensures Justified(all[..p], all[p]) {
      if p < |log| { assert all[..p] == log[..p]; } else { assert all[..p] == log; }
    }
  }

  lemma ScopedPrefix(log: seq<Entry>, n: nat)
    requires Scoped(log) && n <= |log|
    ensures Scoped(log[..n])
  {
    forall p: nat | p < n ensures Justified(log[..n][..p], log[..n][p]) { assert log[..n][..p] == log[..p]; }
  }

  predicate Neutral(e: Entry) { !Resets(e) && !e.Tried? }

  lemma {:induction false} NeutralKeep(log: seq<Entry>, entries: seq<Entry>)
    requires Scoped(log) && forall i :: 0 <= i < |entries| ==> Neutral(entries[i])
    ensures Scoped(log + entries) && Escalations(log + entries) == Escalations(log)
  {
    if entries == [] {
      assert log + entries == log;
    } else {
      var front, last := entries[..|entries| - 1], entries[|entries| - 1];
      NeutralKeep(log, front);
      assert log + entries == (log + front) + [last];
      ScopedPush(log + front, last);
    }
  }

  lemma GuardNeutral(s: Sup, playing: bool, now: real, v: GuardView)
    ensures var g := Guard(s, playing, now, v);
      g.sup.stage == s.stage && forall i :: 0 <= i < |g.entries| ==> Neutral(g.entries[i])
  {}

  ghost predicate FaultStage(s: Sup, f: Finding, now: real, t: Sup, e: seq<Entry>) {
    var c := ClassOf(f.kind);
    if |e| == 4 then
      && Neutral(e[0]) && Neutral(e[1]) && e[2].Wrote? && OnFile(e[2].disk, c, now)
      && e[3].Tried? && e[3].finding == f && e[3].stage == s.stage && e[3].at == now
      && !WaitOnly(f.kind) && t.stage == if c == Transport then s.stage + 1 else 0
    else (forall i :: 0 <= i < |e| ==> Neutral(e[i])) && t.stage == s.stage
  }

  lemma FaultStages(s: Sup, f: Finding, now: real, v: RepairView, high: real)
    requires TimelySave(v.save, now, high)
    ensures FaultStage(s, f, now, Fault(s, f, now, v).sup, Fault(s, f, now, v).entries)
  {
    hide Recent, Persisted, OnFile;
    var o := Fault(s, f, now, v);
    FaultCharges(s, f, now, v);
    if |o.entries| == 4 {
      ChargeOnFile(o.sup.(muted := s.muted), ClassOf(f.kind), Recent(s.times.At(ClassOf(f.kind)), now), now,
                   v.save.readings);
    }
  }

  lemma ChargeOnFile(t: Sup, c: Class, kept: seq<real>, now: real, readings: nat -> real)
    requires t.times.At(c) == kept + [now] && forall i: nat :: now <= readings(i)
    ensures OnFile(Persisted(t, now, readings), c, now)
  {
    var d := Persisted(t, now, readings);
    var first := match c case Transport => 1
                 case Route => 1 + |t.times.transport|
                 case Pcm => 1 + |t.times.transport| + |t.times.route|;
    assert d.stamps.At(c) == Stamps(kept + [now], now, readings, first);
    StampsAt(kept + [now], now, readings, first);
    assert d.stamps.At(c)[|kept|] == readings(first + |kept|);
  }

  lemma StagedAfterFault(s: Sup, f: Finding, now: real, t: Sup, e: seq<Entry>, log: seq<Entry>)
    requires Staged(s, log) && WellMade(f) && FaultStage(s, f, now, t, e)
    ensures Staged(t, log + e)
  {
    if |e| == 4 {
      NeutralKeep(log, e[..3]);
      var before := log + e[..3];
      assert before[|before| - 1] == e[2];
      ScopedPush(before, e[3]);
      assert log + e == before + [e[3]];
    } else {
      NeutralKeep(log, e);
    }
  }

  lemma StagedGuard(s: Sup, playing: bool, now: real, v: GuardView, log: seq<Entry>)
    requires Staged(s, log)
    ensures var g := Guard(s, playing, now, v); Staged(g.sup, log + g.entries)
  {
    GuardNeutral(s, playing, now, v);
    hide Guard;
    NeutralKeep(log, Guard(s, playing, now, v).entries);
  }

  lemma StagedFault(s: Sup, f: Finding, now: real, v: RepairView, high: real, log: seq<Entry>)
    requires Staged(s, log) && WellMade(f) && TimelySave(v.save, now, high)
    ensures var o := Fault(s, f, now, v); Staged(o.sup, log + o.entries)
  {
    hide Fault, FaultStage, TimelySave;
    var o := Fault(s, f, now, v);
    FaultStages(s, f, now, v, high);
    StagedAfterFault(s, f, now, o.sup, o.entries, log);
  }

  /** Output changes, idle ticks and calm probes. */
  lemma StagedPush(s: Sup, t: Sup, log: seq<Entry>, e: Entry)
    requires Staged(s, log) && (e.Changed? || e.Quiet? || e.Calm?) && t.stage == if Resets(e) then 0 else s.stage
    ensures Staged(t, log + [e])
  {
    ScopedPush(log, e);
  }

  lemma StagedSave(s: Sup, log: seq<Entry>, at: real, save: Save)
    requires Staged(s, log)
    ensures Staged(s, log + SavedEntry(s, at, save))
  {
    NeutralKeep(log, SavedEntry(s, at, save));
  }

  lemma StagedKept(now: real, v: TickView, at: real, save: Save, high: real)
    requires TimelySave(v.repair.save, now, high)
    ensures TickKeeps((s, log) => Staged(s, log), (s, log) => Staged(s, log), now, v)
    ensures SaveKeeps((s, log) => Staged(s, log), (s, log) => Staged(s, log), at, save)
  {
    forall s, t, log | Staged(s, log) && Alike(s, t) ensures Staged(t, log) {}
    hide Guard, Fault, WellMade, TimelySave, Staged;
    forall s, playing, log | Staged(s, log)
      ensures Staged(Guard(s, playing, now, v.guard).sup, log + Guard(s, playing, now, v.guard).entries)
    {
      StagedGuard(s, playing, now, v.guard, log);
    }
    forall s, f, log | Staged(s, log) && WellMade(f)
      ensures Staged(Fault(s, f, now, v.repair).sup, log + Fault(s, f, now, v.repair).entries)
    {
      StagedFault(s, f, now, v.repair, high, log);
    }
    forall s, log | Staged(s, log) ensures Staged(AfterChange(s, now), log + [Changed(now)]) {
      StagedPush(s, AfterChange(s, now), log, Changed(now));
    }
    forall s, log | Staged(s, log) ensures Staged(AfterQuiet(s), log + [Quiet]) {
      StagedPush(s, AfterQuiet(s), log, Quiet);
    }
    forall s, k, log | Staged(s, log) ensures Staged(AfterCalm(s, k), log + [Calm(k)]) {
      StagedPush(s, AfterCalm(s, k), log, Calm(k));
    }
    forall s, log | Staged(s, log) ensures Staged(s, log + SavedEntry(s, at, save)) { StagedSave(s, log, at, save); }
  }

  lemma BootStaged(m: Machine, ev: Event)
    requires ev.Boot? && m.alive.None? && Scoped(m.log)
    ensures Scoped(Step(m, ev).log)
    ensures Step(m, ev).alive.Some? ==> Staged(Step(m, ev).alive.value, Step(m, ev).log)
  {
    var s := Restored(ev.zero, m.disk, ev.now, ev.wall);
    var tail := SavedEntry(s, ev.saveAt, ev.save);
    ScopedPush(m.log, Began(ev.now, ev.wall));
    NeutralKeep(m.log + [Began(ev.now, ev.wall)], tail);
    assert m.log + ([Began(ev.now, ev.wall)] + tail) == m.log + [Began(ev.now, ev.wall)] + tail;
  }

  lemma {:induction false} ScopeInvariant(events: seq<Event>)
    requires TimelyRun(events)
    ensures Scoped(Run(events).log)
    ensures Run(events).alive.Some? ==> Staged(Run(events).alive.value, Run(events).log)
  {
    if events != [] {
      var before := events[..|events| - 1];
      var m, ev := Run(before), events[|events| - 1];
      ScopeInvariant(before);
      if ev.Boot? && m.alive.None? {
        BootStaged(m, ev);
      } else if ev.Round? && m.alive.Some? {
        StagedKept(ev.now, ev.view, ev.saveAt, ev.save, ev.end);
        forall log, n: nat | Scoped(log) && n <= |log| ensures Scoped(log[..n]) { ScopedPrefix(log, n); }
        RoundKept((s, log) => Staged(s, log), (s, log) => Staged(s, log), log => Scoped(log), m, ev);
      } else if ev.Shutdown? && m.alive.Some? {
        NeutralKeep(m.log, SavedEntry(m.alive.value, ev.now, ev.save));
      }
    }
  }

  /** In every run, whatever the runtime observes: each repair is on file before it runs and
      has a branch that issues a command. It names Soloist only when an infrastructure
      finding names it. A receiver or silence fault restarts Shairport first, and OwnTone
      with capture exactly when a container or transport repair since the last reset did
      not help. */
  lemma RecoveryIsScoped(events: seq<Event>, p: nat)
    requires TimelyRun(events) && p < |Run(events).log| && Run(events).log[p].Tried?
    ensures var log := Run(events).log;
      var f, plan := log[p].finding, PlanFor(log[p].finding, log[p].stage);
      && p > 0 && log[p - 1].Wrote? && OnFile(log[p - 1].disk, ClassOf(f.kind), log[p].at)
      && !plan.RefuseDestructive? && !plan.RefuseUnrecognized?
      && (Soloist in Touched(plan) ==> f.kind in INFRASTRUCTURE_FAULTS && Soloist in f.services)
      && (f.kind in {ReceiverRoute, DownstreamSilent} ==>
            Touched(plan) == if Escalations(log[..p]) == 0 then [Shairport] else [Owntone, Capture])
      && (f.kind in INFRASTRUCTURE_FAULTS ==> Touched(plan) == f.services)
      && (ClassOf(f.kind) != Transport || f.kind == WiimDisconnected ==> Touched(plan) == [])
  {
    ScopeInvariant(events);
    var log := Run(events).log;
    assert Justified(log[..p], log[p]);
    EveryFaultHasABranch(log[p].finding, log[p].stage);
  }

  /** An escalated repair has a witness: an earlier container or transport repair with no
      reset in between. */
  lemma {:induction false} EscalationHasACause(log: seq<Entry>)
    requires Escalations(log) > 0
    ensures exists i :: 0 <= i < |log| && IsRepair(log[i], Transport) && forall k :: i < k < |log| ==> !Resets(log[k])
  {
    var front, last := log[..|log| - 1], log[|log| - 1];
    if IsRepair(last, Transport) {
      assert IsRepair(log[|log| - 1], Transport);
    } else {
      EscalationHasACause(front);
      var i :| 0 <= i < |front| && IsRepair(front[i], Transport) && forall k :: i < k < |front| ==> !Resets(front[k]);
      forall k | i < k < |log| ensures !Resets(log[k]) {
        if k < |front| { assert front[k] == log[k]; }
      }
      assert IsRepair(log[i], Transport);
    }
  }
}
