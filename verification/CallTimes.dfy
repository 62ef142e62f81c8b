/** When Runtime.repair is called, as opposed to when the tick that calls it read its clock, and
    what that leaves of the budget: the windows that are safe, and only those. */
module CallTimes {
  import opened Prelude
  import opened Findings
  import opened SupervisorSteps
  import opened SupervisorRuns
  import opened RepairBudgets

  /** The times at which Runtime.repair was called for a class, in order. */
  function Calls(log: seq<Entry>, c: Class): seq<real> {
    if log == [] then []
    else
      var front, last := log[..|log| - 1], log[|log| - 1];
      if IsRepair(last, c) then Calls(front, c) + [last.called] else Calls(front, c)
  }

  /** The time lost in restores between two positions of the log. */
  function LagBetween(log: seq<Entry>, i: int, j: int): real
    requires 0 <= i <= j <= |log|
  {
    LagOf(log[..j]) - LagOf(log[..i])
  }

  /** Every repair is called no later than `delay` after its tick read the clock. */
  predicate Prompt(log: seq<Entry>, delay: real) {
    forall i :: 0 <= i < |log| && log[i].Tried? ==> log[i].called - log[i].at <= delay
  }

  /** No restore reads its second clock before its first. */
  predicate Forward(log: seq<Entry>) {
    forall i :: 0 <= i < |log| && log[i].Began? ==> log[i].now <= log[i].wall
  }

  /** The log's times are those of its order, and time lost in a restore is time passed. */
  ghost predicate Ordered(log: seq<Entry>, clock: real) {
    && Forward(log)
    && (forall i :: 0 <= i < |log| && log[i].Tried? ==>
          log[i].at <= log[i].called && log[i].called + LagBetween(log, i, |log|) <= clock)
    && (forall i, j :: 0 <= i < j < |log| && log[i].Tried? && log[j].Tried? ==>
          log[i].called + LagBetween(log, i, j) <= log[j].at)
  }

  lemma LagPush(log: seq<Entry>, e: Entry)
    ensures LagOf(log + [e]) == LagOf(log) + if e.Began? then e.wall - e.now else 0.0
  {
    assert (log + [e])[..|log + [e]| - 1] == log;
  }

  lemma OrderedPush(log: seq<Entry>, e: Entry, clock: real, later: real)
    requires Ordered(log, clock) && clock <= later
    requires e.Tried? ==> clock <= e.at <= e.called <= later
    requires e.Began? ==> clock <= e.now <= e.wall <= later
    ensures Ordered(log + [e], later)
  {
    hide LagOf;
    var all := log + [e];
    LagPush(log, e);
    assert all[..|log|] == log && log[..|log|] == log && all[..|all|] == all;
    forall i | 0 <= i <= |log| ensures all[..i] == log[..i] {}
    forall i, j | 0 <= i < j < |all| && all[i].Tried? && all[j].Tried?
      ensures all[i].called + LagBetween(all, i, j) <= all[j].at
    {
      assert all[..i] == log[..i] && all[..j] == log[..j];
      assert log[i].called + LagBetween(log, i, |log|) <= clock;
    }
  }

  lemma OrderedLater(log: seq<Entry>, clock: real, later: real)
    requires Ordered(log, clock) && clock <= later
    ensures Ordered(log, later)
  {}

  predicate RepairsNothing(entries: seq<Entry>) {
    forall k :: 0 <= k < |entries| ==> !entries[k].Tried? && !entries[k].Began?
  }

  lemma {:induction false} OrderedKeep(log: seq<Entry>, entries: seq<Entry>, clock: real)
    requires Ordered(log, clock) && RepairsNothing(entries)
    ensures Ordered(log + entries, clock)
  {
    if entries == [] {
      assert log + entries == log;
    } else {
      var front, last := entries[..|entries| - 1], entries[|entries| - 1];
      OrderedKeep(log, front, clock);
      OrderedPush(log + front, last, clock, clock);
      assert log + entries == (log + front) + [last];
    }
  }

  lemma OrderedRound(m: Machine, ev: Event)
    requires ev.Round? && m.alive.Some? && Timely(m, ev) && Ordered(m.log, m.clock)
    ensures Ordered(Step(m, ev).log, Step(m, ev).clock)
  {
    hide Ordered, RoundDone;
    var done := RoundDone(m.alive.value, ev);
    RoundRepairsOnce(m.alive.value, ev);
    if k :| 0 <= k < |done| && done[k].Tried? {
      var before, after := done[..k], done[k + 1..];
      assert forall l :: 0 <= l < |after| ==> after[l] == done[k + 1 + l];
      OrderedKeep(m.log, before, m.clock);
      OrderedPush(m.log + before, done[k], m.clock, ev.end);
      OrderedKeep(m.log + before + [done[k]], after, ev.end);
      assert m.log + done == m.log + before + [done[k]] + after;
    } else {
      OrderedKeep(m.log, done, m.clock);
      OrderedLater(m.log + done, m.clock, ev.end);
    }
  }

  lemma {:induction false} TimesAreOrdered(events: seq<Event>)
    requires TimelyRun(events)
    ensures Ordered(Run(events).log, Run(events).clock)
  {
    if events != [] {
      var before := events[..|events| - 1];
      var m, ev := Run(before), events[|events| - 1];
      TimesAreOrdered(before);
      hide Ordered;
      if ev.Boot? && m.alive.None? {
        var e, tail := Began(ev.now, ev.wall),
          SavedEntry(Restored(ev.zero, m.disk, ev.now, ev.wall), ev.saveAt, ev.save);
        OrderedPush(m.log, e, m.clock, ev.end);
        OrderedKeep(m.log + [e], tail, ev.end);
        assert m.log + ([e] + tail) == m.log + [e] + tail;
      } else if ev.Round? && m.alive.Some? {
        OrderedRound(m, ev);
      } else if ev.Shutdown? && m.alive.Some? {
        OrderedKeep(m.log, SavedEntry(m.alive.value, ev.now, ev.save), m.clock);
        OrderedLater(m.log + SavedEntry(m.alive.value, ev.now, ev.save), m.clock, ev.end);
      }
    }
  }

  // ------------------------------------------------------------------------ the budget

  lemma {:induction false} LagGrows(log: seq<Entry>, i: int, j: int)
    requires Forward(log) && 0 <= i <= j <= |log|
    ensures LagBetween(log, i, j) >= 0.0
  {
    if i < j {
      assert log[..j] == log[..j - 1] + [log[j - 1]];
      LagPush(log[..j - 1], log[j - 1]);
      LagGrows(log, i, j - 1);
    }
  }

  /** The repairs between two positions all count in a window that holds both ends. */
  lemma {:induction false} SegmentCounts(log: seq<Entry>, c: Class, i: int, n: int, from: real)
    requires 0 <= i <= n <= |log|
    requires forall k :: i <= k < n && IsRepair(log[k], c) ==>
      from <= log[k].at + LagOf(log[..k]) < from + BUDGET_SECONDS
    ensures |Calls(log[i..n], c)| <= CountWindow(Attempts(log[..n], c), from, BUDGET_SECONDS)
  {
    if i < n {
      SegmentCounts(log, c, i, n - 1, from);
      assert log[i..n][..n - 1 - i] == log[i..n - 1] && log[i..n][n - 1 - i] == log[n - 1];
      assert log[..n] == log[..n - 1] + [log[n - 1]];
      AttemptsPush(log[..n - 1], log[n - 1]);
      if IsRepair(log[n - 1], c) {
        CountPush(Attempts(log[..n - 1], c), log[n - 1].at + LagOf(log[..n - 1]));
      }
    }
  }

  lemma {:induction false} WindowGrows(log: seq<Entry>, c: Class, n: int, from: real)
    requires 0 <= n <= |log|
    ensures CountWindow(Attempts(log[..n], c), from, BUDGET_SECONDS)
            <= CountWindow(Attempts(log, c), from, BUDGET_SECONDS)
  {
    if n < |log| {
      var front, last := log[..|log| - 1], log[|log| - 1];
      assert front[..n] == log[..n] && log == front + [last];
      WindowGrows(front, c, n, from);
      AttemptsPush(front, last);
      if IsRepair(last, c) { CountPush(Attempts(front, c), last.at + LagOf(front)); }
    } else {
      assert log[..n] == log;
    }
  }

  lemma {:induction false} CappedBy(events: seq<Event>, c: Class, from: real)
    requires TimelyRun(events)
    ensures CountWindow(Attempts(Run(events).log, c), from, BUDGET_SECONDS) <= Limit(c)
  {
    hide Run, Charged, Attempts, CountWindow, FileCovers;
    BudgetInvariant(events);
    var log := Run(events).log;
    assert WithinLimits(log);
    assert Capped(Attempts(log, c), Limit(c));
  }

  /** From position i to position j, both repairs of the class, there are more than its limit. */
  predicate Exceeds(log: seq<Entry>, c: Class, i: int, j: int) {
    0 <= i < j < |log| && IsRepair(log[i], c) && IsRepair(log[j], c) && |Calls(log[i..j + 1], c)| > Limit(c)
  }

  /** The ticks of the repairs at i and j are 600 seconds apart less what restores between them
      lost, and since losing it took as long, the last comes at least that long after the first
      call. */
  predicate Stretched(log: seq<Entry>, i: int, j: int)
    requires 0 <= i < j < |log| && log[i].Tried? && log[j].Tried?
  {
    && log[j].at - log[i].at >= BUDGET_SECONDS - LagBetween(log, i, j)
    && log[i].at <= log[i].called && log[j].at <= log[j].called
    && log[j].at - log[i].called >= LagBetween(log, i, j) >= 0.0
  }

  /** In every run, whenever the repairs of a class exceed its limit, they are stretched. */
  lemma {:induction false} RepairBudget(events: seq<Event>)
    requires TimelyRun(events)
    ensures forall c, i, j :: Exceeds(Run(events).log, c, i, j) ==> Stretched(Run(events).log, i, j)
  {
    hide Run, Calls, Stretched;
    forall c, i, j | Exceeds(Run(events).log, c, i, j) ensures Stretched(Run(events).log, i, j) {
      ExceedingIsStretched(events, c, i, j);
    }
  }

  lemma {:induction false} ExceedingIsStretched(events: seq<Event>, c: Class, i: int, j: int)
    requires TimelyRun(events) && Exceeds(Run(events).log, c, i, j)
    ensures Stretched(Run(events).log, i, j)
  {
    hide Run, Attempts, Calls;
    var log, clock := Run(events).log, Run(events).clock;
    TimesAreOrdered(events);
    LagGrows(log, i, j);
    var from := log[i].at + LagOf(log[..i]);
    if log[j].at + LagOf(log[..j]) < from + BUDGET_SECONDS {
      forall k | i <= k < j + 1 && IsRepair(log[k], c)
        ensures from <= log[k].at + LagOf(log[..k]) < from + BUDGET_SECONDS
      {
        LagGrows(log, i, k);
        LagGrows(log, k, j);
      }
      SegmentCounts(log, c, i, j + 1, from);
      WindowGrows(log, c, j + 1, from);
      CappedBy(events, c, from);
    }
  }

  // ------------------------------------------------------------------- windows of calls

  /** The first and the last call in a window, and everything between them. */
  lemma {:induction false} FirstAndLast(log: seq<Entry>, c: Class, from: real, width: real) returns (i: int, j: int)
    requires CountWindow(Calls(log, c), from, width) >= 1
    ensures 0 <= i <= j < |log| && IsRepair(log[i], c) && IsRepair(log[j], c)
    ensures from <= log[i].called < from + width && from <= log[j].called < from + width
    ensures |Calls(log[i..j + 1], c)| >= CountWindow(Calls(log, c), from, width)
  {
    var front, last := log[..|log| - 1], log[|log| - 1];
    assert log == front + [last];
    CallsPush(front, last, c, from, width);
    hide Calls, CountWindow;
    if IsRepair(last, c) && from <= last.called < from + width {
      j := |log| - 1;
      if CountWindow(Calls(front, c), from, width) >= 1 {
        var l;
        i, l := FirstAndLast(front, c, from, width);
        LastToo(front, last, c, i, l);
      } else {
        i := j;
        LastToo(front, last, c, j, j - 1);
      }
    } else {
      i, j := FirstAndLast(front, c, from, width);
      assert front[i..j + 1] == log[i..j + 1];
    }
  }

  lemma CallsPush(log: seq<Entry>, e: Entry, c: Class, from: real, width: real)
    ensures Calls(log + [e], c) == if IsRepair(e, c) then Calls(log, c) + [e.called] else Calls(log, c)
    ensures CountWindow(Calls(log + [e], c), from, width)
            == CountWindow(Calls(log, c), from, width)
               + if IsRepair(e, c) && from <= e.called < from + width then 1 else 0
  {
    assert (log + [e])[..|log + [e]| - 1] == log;
    if IsRepair(e, c) { CountPush(Calls(log, c), e.called); }
  }

  lemma LastToo(front: seq<Entry>, last: Entry, c: Class, i: int, l: int)
    requires 0 <= i <= l + 1 <= |front| && IsRepair(last, c)
    ensures |Calls((front + [last])[i..], c)| >= |Calls(front[i..l + 1], c)| + 1
    ensures (front + [last])[i..|front| + 1] == (front + [last])[i..]
    ensures l + 1 == i ==> Calls(front[i..l + 1], c) == []
  {
    assert (front + [last])[i..] == front[i..] + [last];
    CallsPush(front[i..], last, c, 0.0, 0.0);
    CallsGrow(front[i..], c, l + 1 - i);
    assert front[i..][..l + 1 - i] == front[i..l + 1];
  }

  lemma {:induction false} CallsGrow(log: seq<Entry>, c: Class, n: int)
    requires 0 <= n <= |log|
    ensures |Calls(log[..n], c)| <= |Calls(log, c)|
  {
    if n < |log| {
      assert log[..|log| - 1][..n] == log[..n];
      CallsGrow(log[..|log| - 1], c, n);
    } else {
      assert log[..n] == log;
    }
  }

  function Max(a: real, b: real): real { if a >= b then a else b }

  /** The widest window that never holds more calls than the limit, when restores lose at most
      `lag` in all and repairs are called at most `delay` after their tick began. */
  function SafeWidth(lag: real, delay: real): real {
    Max(0.0, Max(BUDGET_SECONDS - lag - delay, (BUDGET_SECONDS - delay) / 2.0))
  }

  ghost predicate Allowed(events: seq<Event>, lag: real, delay: real) {
    TimelyRun(events) && LagOf(Run(events).log) <= lag && Prompt(Run(events).log, delay)
  }

  lemma {:induction false} WindowBudget(events: seq<Event>, c: Class, from: real, width: real, lag: real, delay: real)
    requires Allowed(events, lag, delay) && width <= SafeWidth(lag, delay)
    ensures CountWindow(Calls(Run(events).log, c), from, width) <= Limit(c)
  {
    hide Run, TimelyRun;
    var log := Run(events).log;
    assert log[..|log|] == log && log[..0] == [];
    if CountWindow(Calls(log, c), from, width) > Limit(c) {
      var i, j := FirstAndLast(log, c, from, width);
      if i == j { CallsOfOne(log, c, i); }
      RepairBudget(events);
      assert Exceeds(log, c, i, j);
      TimesAreOrdered(events);
      LagGrows(log, 0, i);
      LagGrows(log, j, |log|);
    }
  }

  lemma CallsOfOne(log: seq<Entry>, c: Class, i: int)
    requires 0 <= i < |log|
    ensures |Calls(log[i..i + 1], c)| <= 1
  {
    assert log[i..i + 1][..0] == [];
  }
}
