/** Repeated evidence: every repair but that of a misrouted capture follows a streak. */
module Streaks {
  import opened Prelude
  import opened Findings
  import opened SupervisorSteps
  import opened SupervisorRuns

  /** Effects that are no observation: a streak looks through them. */
  predicate Unseen(e: Entry) { e.Wrote? || e.Spent? || e.Commanded? || e.Moved? || e.Lost? }

  /** How many observations of fault `k` end the log with no other observation, repair,
      output change or restart between them. */
  function Trailing(log: seq<Entry>, k: Kind): nat {
    if log == [] then 0
    else
      var front, last := log[..|log| - 1], log[|log| - 1];
      if Unseen(last) then Trailing(front, k)
      else if last == Saw(k) then Trailing(front, k) + 1
      else 0
  }

  /** Every repair in the log follows enough observations of its own kind, and none is for
      a kind that only waits. */
  predicate Evidenced(log: seq<Entry>) {
    forall p :: 0 <= p < |log| && log[p].Tried? ==>
      var k := log[p].finding.kind;
      Trailing(log[..p], k) >= Required(k) && !WaitOnly(k)
  }

  /** The streak fields of a live process are exactly what its log says. */
  ghost predicate Counts(s: Sup, log: seq<Entry>) {
    forall k :: Trailing(log, k) == if s.previousFault == Some(k) then s.consecutive else 0
  }

  lemma TrailingPush(log: seq<Entry>, e: Entry)
    ensures Unseen(e) ==> forall k :: Trailing(log + [e], k) == Trailing(log, k)
    ensures e.Saw? ==> forall k :: Trailing(log + [e], k) == if e.kind == k then Trailing(log, k) + 1 else 0
    ensures !Unseen(e) && !e.Saw? ==> forall k :: Trailing(log + [e], k) == 0
  {
    assert (log + [e])[..|log + [e]| - 1] == log;
  }

  lemma EvidencedPush(log: seq<Entry>, e: Entry)
    requires Evidenced(log)
    requires e.Tried? ==> Trailing(log, e.finding.kind) >= Required(e.finding.kind) && !WaitOnly(e.finding.kind)
    ensures Evidenced(log + [e])
  {
    forall p | 0 <= p < |log + [e]| && (log + [e])[p].Tried?
      ensures var k := (log + [e])[p].finding.kind; Trailing((log + [e])[..p], k) >= Required(k) && !WaitOnly(k)
    {
      if p < |log| { assert (log + [e])[..p] == log[..p]; } else { assert (log + [e])[..p] == log; }
    }
  }

  lemma EvidencedPrefix(log: seq<Entry>, n: nat)
    requires n <= |log| && Evidenced(log)
    ensures Evidenced(log[..n])
  {
    forall p | 0 <= p < n && log[..n][p].Tried?
      ensures var k := log[..n][p].finding.kind; Trailing(log[..n][..p], k) >= Required(k) && !WaitOnly(k)
    {
      assert log[..n][..p] == log[..p];
    }
  }

  lemma {:induction false} UnseenKeep(log: seq<Entry>, entries: seq<Entry>)
    requires Evidenced(log) && forall i :: 0 <= i < |entries| ==> Unseen(entries[i])
    ensures Evidenced(log + entries) && forall k :: Trailing(log + entries, k) == Trailing(log, k)
  {
    if entries == [] {
      assert log + entries == log;
    } else {
      var front, last := entries[..|entries| - 1], entries[|entries| - 1];
      UnseenKeep(log, front);
      assert log + entries == (log + front) + [last];
      TrailingPush(log + front, last);
      EvidencedPush(log + front, last);
    }
  }

  lemma GuardCounts(s: Sup, playing: bool, now: real, v: GuardView, log: seq<Entry>)
    requires Streak(s, log)
    ensures Streak(Guard(s, playing, now, v).sup, log + Guard(s, playing, now, v).entries)
  {
    var g := Guard(s, playing, now, v);
    GuardShape(s, playing, now, v);
    UnseenKeep(log, g.entries);
  }

  lemma GuardShape(s: Sup, playing: bool, now: real, v: GuardView)
    ensures var g := Guard(s, playing, now, v);
      g.sup == s.(muted := g.sup.muted) && forall i :: 0 <= i < |g.entries| ==> Unseen(g.entries[i])
  {}

  /** What fault() does to the streak, apart from its details. */
  ghost predicate FaultStreak(s: Sup, f: Finding, t: Sup, e: seq<Entry>) {
    var streak := if s.previousFault == Some(f.kind) then s.consecutive + 1 else 1;
    if WaitOnly(f.kind) then e == [Waited(f.kind)] && t.previousFault == None && t.consecutive == 0
    else
      && t.previousFault == Some(f.kind)
      && |e| <= 4 && e != [] && e[0] == Saw(f.kind) && (|e| > 1 ==> e[1].Spent?)
      && (if |e| > 2
          then |e| == 4 && e[2].Wrote? && e[3].Tried? && e[3].finding == f && streak >= Required(f.kind)
               && t.consecutive == 0
          else t.consecutive == streak)
  }

  lemma FaultShape(s: Sup, f: Finding, now: real, v: RepairView)
    ensures var o := Fault(s, f, now, v); FaultStreak(s, f, o.sup, o.entries)
  {}

  lemma StreakAfterFault(s: Sup, f: Finding, t: Sup, e: seq<Entry>, log: seq<Entry>)
    requires Streak(s, log) && FaultStreak(s, f, t, e)
    ensures Streak(t, log + e)
  {
    hide Trailing, Evidenced;
    TrailingPush(log, e[0]);
    EvidencedPush(log, e[0]);
    if |e| > 2 {
      UnseenKeep(log + [e[0]], e[1..3]);
      TrailingPush(log + [e[0]] + e[1..3], e[3]);
      EvidencedPush(log + [e[0]] + e[1..3], e[3]);
      assert log + e == log + [e[0]] + e[1..3] + [e[3]];
    } else {
      UnseenKeep(log + [e[0]], e[1..]);
      assert log + e == log + [e[0]] + e[1..];
    }
  }

  lemma FaultCounts(s: Sup, f: Finding, now: real, v: RepairView, log: seq<Entry>)
    requires Streak(s, log)
    ensures Streak(Fault(s, f, now, v).sup, log + Fault(s, f, now, v).entries)
  {
    var o := Fault(s, f, now, v);
    FaultShape(s, f, now, v);
    StreakAfterFault(s, f, o.sup, o.entries, log);
  }

  ghost predicate Streak(s: Sup, log: seq<Entry>) { Counts(s, log) && Evidenced(log) }

  lemma StreakKept(now: real, v: TickView, at: real, save: Save)
    ensures TickKeeps((s, log) => Streak(s, log), (s, log) => Streak(s, log), now, v)
    ensures SaveKeeps((s, log) => Streak(s, log), (s, log) => Streak(s, log), at, save)
  {
    forall s, playing, log | Streak(s, log)
      ensures Streak(Guard(s, playing, now, v.guard).sup, log + Guard(s, playing, now, v.guard).entries)
    {
      GuardCounts(s, playing, now, v.guard, log);
    }
    forall s, f, log | Streak(s, log)
      ensures Streak(Fault(s, f, now, v.repair).sup, log + Fault(s, f, now, v.repair).entries)
    {
      FaultCounts(s, f, now, v.repair, log);
    }
    forall s, e: Entry, log | Streak(s, log) && (e.Changed? || e.Quiet? || e.Calm?)
      ensures Evidenced(log + [e]) && forall k :: Trailing(log + [e], k) == 0
    {
      TrailingPush(log, e);
      EvidencedPush(log, e);
    }
    forall s, log | Streak(s, log) ensures Streak(s, log + SavedEntry(s, at, save)) {
      UnseenKeep(log, SavedEntry(s, at, save));
    }
  }

  /** In every run, with crashes and failed writes anywhere: a repair follows at least two
      uninterrupted observations of exactly its fault (one for a misrouted capture), and a
      wait-only finding never reaches repair. */
  lemma {:induction false} RepairsAreEvidenced(events: seq<Event>)
    ensures Evidenced(Run(events).log)
    ensures Run(events).alive.Some? ==> Counts(Run(events).alive.value, Run(events).log)
  {
    if events != [] {
      var m, ev := Run(events[..|events| - 1]), events[|events| - 1];
      RepairsAreEvidenced(events[..|events| - 1]);
      if ev.Boot? && m.alive.None? {
        BootCounts(m, ev);
      } else if ev.Round? && m.alive.Some? {
        StreakKept(ev.now, ev.view, ev.saveAt, ev.save);
        forall log, n: nat | Evidenced(log) && n <= |log| ensures Evidenced(log[..n]) { EvidencedPrefix(log, n); }
        RoundKept((s, log) => Streak(s, log), (s, log) => Streak(s, log), log => Evidenced(log), m, ev);
      } else if ev.Shutdown? && m.alive.Some? {
        UnseenKeep(m.log, SavedEntry(m.alive.value, ev.now, ev.save));
      }
    }
  }

  lemma BootCounts(m: Machine, ev: Event)
    requires ev.Boot? && m.alive.None? && Evidenced(m.log)
    ensures Evidenced(Step(m, ev).log)
    ensures Step(m, ev).alive.Some? ==> Counts(Step(m, ev).alive.value, Step(m, ev).log)
  {
    var s := Restored(ev.zero, m.disk, ev.now, ev.wall);
    var tail := SavedEntry(s, ev.saveAt, ev.save);
    TrailingPush(m.log, Began(ev.now, ev.wall));
    EvidencedPush(m.log, Began(ev.now, ev.wall));
    UnseenKeep(m.log + [Began(ev.now, ev.wall)], tail);
    assert m.log + ([Began(ev.now, ev.wall)] + tail) == m.log + [Began(ev.now, ev.wall)] + tail;
  }
}
