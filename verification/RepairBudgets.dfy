/** Recovery budgets over whole runs: crashes, restarts and failed writes included, no
    window holds more repairs of a class than its limit. */
module RepairBudgets {
  import opened Prelude
  import opened Findings
  import opened SupervisorSteps
  import opened SupervisorRuns

  /** When the repairs of a class were charged, in order, on a clock that also counts the time
      lost in restores before them. On that clock no restart makes an attempt look older. */
  function Attempts(log: seq<Entry>, c: Class): seq<real> {
    if log == [] then []
    else
      var front, last := log[..|log| - 1], log[|log| - 1];
      if IsRepair(last, c) then Attempts(front, c) + [last.at + LagOf(front)] else Attempts(front, c)
  }

  function CountFrom(times: seq<real>, from: real): nat {
    if times == [] then 0
    else CountFrom(times[..|times| - 1], from) + if times[|times| - 1] >= from then 1 else 0
  }

  /** How many times lie in the window of the given width that starts at `from`. */
  function CountWindow(times: seq<real>, from: real, width: real): nat {
    if times == [] then 0
    else
      var last := times[|times| - 1];
      CountWindow(times[..|times| - 1], from, width) + if from <= last < from + width then 1 else 0
  }

  /** Within the budget window, the list accounts for every repair of the history, none made
      to look older; `lag` is what the history's clock is ahead by now. */
  ghost predicate Covers(list: seq<real>, history: seq<real>, now: real, lag: real) {
    forall t: real :: t > now + lag - BUDGET_SECONDS ==> CountFrom(history, t) <= CountFrom(list, t - lag)
  }

  predicate AtMost(times: seq<real>, high: real) {
    forall i :: 0 <= i < |times| ==> times[i] <= high
  }

  /** What a restart would find. */
  function FileStamps(log: seq<Entry>, c: Class): seq<real> {
    match OnDisk(None, log)
    case None => []
    case Some(d) => d.stamps.At(c)
  }

  ghost predicate FileCovers(log: seq<Entry>, now: real, high: real, lag: real) {
    forall c :: Covers(FileStamps(log, c), Attempts(log, c), now, lag) && AtMost(FileStamps(log, c), high)
  }

  /** No window holds more repairs than the limit. */
  ghost predicate WithinLimits(log: seq<Entry>) {
    forall c :: Capped(Attempts(log, c), Limit(c))
  }

  ghost predicate Capped(history: seq<real>, limit: nat) {
    forall a: real :: CountWindow(history, a, BUDGET_SECONDS) <= limit
  }

  ghost predicate Safe(log: seq<Entry>, now: real, high: real, lag: real) {
    && WithinLimits(log)
    && forall p: nat :: p <= |log| ==> FileCovers(log[..p], now, high, lag)
  }

  ghost predicate Listed(list: seq<real>, history: seq<real>, now: real, lag: real) {
    Covers(list, history, now, lag) && AtMost(list, now)
  }

  ghost predicate Charged(s: Sup, log: seq<Entry>, now: real, high: real, lag: real) {
    && lag == LagOf(log) && (forall c :: Listed(s.times.At(c), Attempts(log, c), now, lag))
    && Safe(log, now, high, lag)
  }

  // ------------------------------------------------------------------------ counting

  lemma CountPush(times: seq<real>, t: real)
    ensures forall from: real :: CountFrom(times + [t], from) == CountFrom(times, from) + if t >= from then 1 else 0
    ensures forall from: real, width: real ::
      CountWindow(times + [t], from, width)
      == CountWindow(times, from, width) + if from <= t < from + width then 1 else 0
  {
    assert (times + [t])[..|times + [t]| - 1] == times;
  }

  lemma {:induction false} CountBounds(times: seq<real>, from: real, width: real)
    ensures CountWindow(times, from, width) <= CountFrom(times, from) <= |times|
  {
    if times != [] { CountBounds(times[..|times| - 1], from, width); }
  }

  lemma {:induction false} CountShift(times: seq<real>, low: real, from: real)
    requires low <= from
    ensures CountFrom(times, from) <= CountFrom(times, low)
  {
    if times != [] { CountShift(times[..|times| - 1], low, from); }
  }

  /** Pruning forgets no attempt younger than the window. */
  lemma {:induction false} PruningForgetsOnlyTheOld(times: seq<real>, now: real, from: real)
    requires from > now - BUDGET_SECONDS
    ensures CountFrom(Recent(times, now), from) == CountFrom(times, from)
  {
    if times != [] {
      PruningForgetsOnlyTheOld(times[..|times| - 1], now, from);
      CountPush(Recent(times[..|times| - 1], now), times[|times| - 1]);
    }
  }

  /** Persisting never makes an attempt look older. */
  lemma {:induction false} StampsAreNoOlder(times: seq<real>, now: real, readings: nat -> real, first: nat, from: real)
    requires forall i: nat :: now <= readings(i)
    ensures CountFrom(times, from) <= CountFrom(Stamps(times, now, readings, first), from)
  {
    if times != [] {
      var front := times[..|times| - 1];
      StampsAreNoOlder(front, now, readings, first, from);
      var all := Stamps(times, now, readings, first);
      assert all[..|all| - 1] == Stamps(front, now, readings, first);
    }
  }

  /** Restoring keeps every stamp still in the window, older by the restore's lag at most. */
  lemma {:induction false} RestoringKeepsTheYoung(stamps: seq<real>, now: real, wall: real, from: real)
    requires AtMost(stamps, wall) && from > wall - BUDGET_SECONDS
    ensures CountFrom(stamps, from) <= CountFrom(Restamped(stamps, now, wall), from - (wall - now))
  {
    if stamps != [] {
      var front, last := stamps[..|stamps| - 1], stamps[|stamps| - 1];
      RestoringKeepsTheYoung(front, now, wall, from);
      CountPush(Restamped(front, now, wall), now - (wall - last));
    }
  }

  lemma CapFront(times: seq<real>, last: real, limit: nat)
    requires Capped(times + [last], limit)
    ensures Capped(times, limit)
  {
    forall a: real ensures CountWindow(times, a, BUDGET_SECONDS) <= limit {
      assert CountWindow(times + [last], a, BUDGET_SECONDS) <= limit;
      CountPush(times, last);
    }
  }

  // ---------------------------------------------------------------------- coverage

  lemma CoversLater(list: seq<real>, history: seq<real>, now: real, lag: real, later: real, more: real)
    requires Covers(list, history, now, lag) && now <= later && lag <= more
    ensures Covers(list, history, later, more)
  {
    forall t: real | t > later + more - BUDGET_SECONDS ensures CountFrom(history, t) <= CountFrom(list, t - more) {
      CountShift(list, t - more, t - lag);
    }
  }

  lemma SafeLater(log: seq<Entry>, now: real, high: real, lag: real, later: real, higher: real, more: real)
    requires Safe(log, now, high, lag) && now <= later && high <= higher && lag <= more
    ensures Safe(log, later, higher, more)
  {
    forall p: nat | p <= |log| ensures FileCovers(log[..p], later, higher, more) {
      assert FileCovers(log[..p], now, high, lag);
      forall c ensures Covers(FileStamps(log[..p], c), Attempts(log[..p], c), later, more) {
        CoversLater(FileStamps(log[..p], c), Attempts(log[..p], c), now, lag, later, more);
      }
    }
  }

  lemma ChargedLater(s: Sup, log: seq<Entry>, now: real, high: real, lag: real, later: real, higher: real)
    requires Charged(s, log, now, high, lag) && now <= later && high <= higher
    ensures Charged(s, log, later, higher, lag)
  {
    SafeLater(log, now, high, lag, later, higher, lag);
    forall c ensures Covers(s.times.At(c), Attempts(log, c), later, lag) {
      CoversLater(s.times.At(c), Attempts(log, c), now, lag, later, lag);
    }
  }

  lemma AttemptsPush(log: seq<Entry>, e: Entry)
    ensures forall c :: (IsRepair(e, c) ==> Attempts(log + [e], c) == Attempts(log, c) + [e.at + LagOf(log)])
    ensures forall c :: (!IsRepair(e, c) ==> Attempts(log + [e], c) == Attempts(log, c))
    ensures LagOf(log + [e]) == LagOf(log) + if e.Began? then e.wall - e.now else 0.0
    ensures OnDisk(None, log + [e]) == if e.Wrote? then Some(e.disk) else OnDisk(None, log)
  {
    assert (log + [e])[..|log + [e]| - 1] == log;
  }

  lemma SafePush(log: seq<Entry>, e: Entry, now: real, high: real, lag: real)
    requires Safe(log, now, high, lag)
    requires WithinLimits(log + [e]) && FileCovers(log + [e], now, high, lag)
    ensures Safe(log + [e], now, high, lag)
  {
    forall p: nat | p <= |log + [e]| ensures FileCovers((log + [e])[..p], now, high, lag) {
      if p <= |log| { assert (log + [e])[..p] == log[..p]; } else { assert (log + [e])[..p] == log + [e]; }
    }
  }

  lemma SafePrefix(log: seq<Entry>, n: nat, now: real, high: real, lag: real)
    requires Safe(log, now, high, lag) && n <= |log|
    ensures Safe(log[..n], now, high, lag)
    decreases |log|
  {
    if n == |log| {
      assert log[..n] == log;
    } else {
      var front, last := log[..|log| - 1], log[|log| - 1];
      assert log == front + [last];
      AttemptsPush(front, last);
      forall c ensures Capped(Attempts(front, c), Limit(c)) {
        if IsRepair(last, c) { CapFront(Attempts(front, c), last.at + LagOf(front), Limit(c)); }
      }
      forall p: nat | p <= |front| ensures FileCovers(front[..p], now, high, lag) { assert front[..p] == log[..p]; }
      SafePrefix(front, n, now, high, lag);
      assert front[..n] == log[..n];
    }
  }

  /** Effects other than writing the file and repairing change neither side. */
  lemma PlainPush(s: Sup, log: seq<Entry>, e: Entry, now: real, high: real, lag: real)
    requires Charged(s, log, now, high, lag) && Plain(e)
    ensures Charged(s, log + [e], now, high, lag)
  {
    AttemptsPush(log, e);
    assert FileCovers(log[..|log|], now, high, lag) && log[..|log|] == log;
    forall c ensures FileStamps(log + [e], c) == FileStamps(log, c) {}
    SafePush(log, e, now, high, lag);
  }

  lemma WritePush(s: Sup, log: seq<Entry>, at: real, readings: nat -> real, now: real, high: real, lag: real)
    requires Charged(s, log, now, high, lag) && now <= at && TimelySave(Saved(readings), at, high)
    ensures Charged(s, log + [Wrote(Persisted(s, at, readings))], now, high, lag)
    ensures forall c, from: real ::
      CountFrom(s.times.At(c), from) <= CountFrom(FileStamps(log + [Wrote(Persisted(s, at, readings))], c), from)
  {
    var e := Wrote(Persisted(s, at, readings));
    AttemptsPush(log, e);
    forall c
      ensures forall from: real :: CountFrom(s.times.At(c), from) <= CountFrom(FileStamps(log + [e], c), from)
      ensures AtMost(FileStamps(log + [e], c), high)
    {
      var list := s.times.At(c);
      var first := match c case Transport => 1
                   case Route => 1 + |s.times.transport|
                   case Pcm => 1 + |s.times.transport| + |s.times.route|;
      assert FileStamps(log + [e], c) == Stamps(list, at, readings, first);
      StampsAt(list, at, readings, first);
      forall i: nat ensures at <= readings(i) <= high { assert at <= Saved(readings).readings(i) <= high; }
      forall from: real ensures CountFrom(list, from) <= CountFrom(Stamps(list, at, readings, first), from) {
        StampsAreNoOlder(list, at, readings, first, from);
      }
    }
    SafePush(log, e, now, high, lag);
  }

  /** Pruning, and then appending an attempt, keep the cover. */
  lemma PrunedCovers(list: seq<real>, history: seq<real>, now: real, lag: real)
    requires Listed(list, history, now, lag) && 0.0 <= lag
    ensures Listed(Recent(list, now), history, now, lag) && Covers(Recent(list, now), history, now, lag)
    ensures Listed(Recent(list, now) + [now], history, now, lag)
  {
    forall u: real | u > now + lag - BUDGET_SECONDS
      ensures CountFrom(history, u) <= CountFrom(Recent(list, now), u - lag)
      ensures CountFrom(history, u) <= CountFrom(Recent(list, now) + [now], u - lag)
    {
      PruningForgetsOnlyTheOld(list, now, u - lag);
      CountPush(Recent(list, now), now);
    }
  }

  /** A repair within the limit keeps every window within it. */
  lemma RepairFits(history: seq<real>, kept: seq<real>, now: real, lag: real, limit: nat)
    requires Covers(kept, history, now, lag) && |kept| < limit && Capped(history, limit)
    ensures Capped(history + [now + lag], limit)
  {
    var charged := now + lag;
    CountPush(history, charged);
    forall a: real ensures CountWindow(history + [charged], a, BUDGET_SECONDS) <= limit {
      assert CountWindow(history, a, BUDGET_SECONDS) <= limit;
      if a <= charged < a + BUDGET_SECONDS {
        CountBounds(history, a, BUDGET_SECONDS);
        CountBounds(kept, a - lag, 0.0);
      }
    }
  }

  /** A list that covers the history still covers it once both hold the new repair. */
  lemma BothGrow(list: seq<real>, kept: seq<real>, history: seq<real>, now: real, lag: real)
    requires Covers(kept, history, now, lag) && Covers(list, history, now, lag) && 0.0 <= lag
    requires forall from: real :: CountFrom(kept + [now], from) <= CountFrom(list, from)
    ensures Covers(list, history + [now + lag], now, lag)
  {
    var charged := now + lag;
    CountPush(history, charged);
    CountPush(kept, now);
    forall u: real | u > charged - BUDGET_SECONDS
      ensures CountFrom(history + [charged], u) <= CountFrom(list, u - lag) {
      assert CountFrom(kept + [now], u - lag) <= CountFrom(list, u - lag);
    }
  }

  lemma RepairKeepsLimits(log: seq<Entry>, e: Entry, c: Class, kept: seq<real>, lag: real)
    requires IsRepair(e, c) && WithinLimits(log) && lag == LagOf(log) && |kept| < Limit(c)
    requires Covers(kept, Attempts(log, c), e.at, lag)
    ensures WithinLimits(log + [e])
  {
    hide Covers, Capped, Attempts, LagOf;
    AttemptsPush(log, e);
    RepairFits(Attempts(log, c), kept, e.at, lag, Limit(c));
    forall d ensures Capped(Attempts(log + [e], d), Limit(d)) {
      assert Capped(Attempts(log, d), Limit(d));
    }
  }

  lemma RepairKeepsFile(log: seq<Entry>, e: Entry, c: Class, kept: seq<real>, high: real, lag: real)
    requires IsRepair(e, c) && FileCovers(log, e.at, high, lag) && 0.0 <= lag == LagOf(log)
    requires Covers(kept, Attempts(log, c), e.at, lag)
    requires forall from: real :: CountFrom(kept + [e.at], from) <= CountFrom(FileStamps(log, c), from)
    ensures FileCovers(log + [e], e.at, high, lag)
  {
    hide Covers, AtMost, CountFrom, Attempts, LagOf, OnDisk;
    AttemptsPush(log, e);
    BothGrow(FileStamps(log, c), kept, Attempts(log, c), e.at, lag);
    forall d
      ensures Covers(FileStamps(log + [e], d), Attempts(log + [e], d), e.at, lag)
      ensures AtMost(FileStamps(log + [e], d), high)
    {
      assert Covers(FileStamps(log, d), Attempts(log, d), e.at, lag) && AtMost(FileStamps(log, d), high);
      assert FileStamps(log + [e], d) == FileStamps(log, d);
    }
  }

  lemma RepairPush(t: Sup, log: seq<Entry>, e: Entry, c: Class, kept: seq<real>, high: real, lag: real)
    requires IsRepair(e, c) && Charged(t, log, e.at, high, lag) && 0.0 <= lag
    requires t.times.At(c) == kept + [e.at] && |kept| < Limit(c)
    requires Covers(kept, Attempts(log, c), e.at, lag)
    requires forall from: real :: CountFrom(kept + [e.at], from) <= CountFrom(FileStamps(log, c), from)
    ensures Charged(t, log + [e], e.at, high, lag)
  {
    hide Covers, AtMost, CountFrom, Attempts, LagOf, FileCovers, WithinLimits;
    AttemptsPush(log, e);
    assert FileCovers(log[..|log|], e.at, high, lag) && log[..|log|] == log;
    RepairKeepsLimits(log, e, c, kept, lag);
    RepairKeepsFile(log, e, c, kept, high, lag);
    SafePush(log, e, e.at, high, lag);
    BothGrow(kept + [e.at], kept, Attempts(log, c), e.at, lag);
    forall d ensures Listed(t.times.At(d), Attempts(log + [e], d), e.at, lag) {
      assert Listed(t.times.At(d), Attempts(log, d), e.at, lag);
    }
  }

  // ------------------------------------------------------------------ parts of a tick

  lemma GuardBudget(s: Sup, playing: bool, now: real, v: GuardView, log: seq<Entry>, high: real, lag: real)
    requires Charged(s, log, now, high, lag) && now <= high && TimelySave(v.save, now, high)
    ensures var g := Guard(s, playing, now, v); Charged(g.sup, log + g.entries, now, high, lag)
  {
    var g := Guard(s, playing, now, v);
    GuardWrites(s, playing, now, v);
    EntriesBudget(s, g.sup, log, g.entries, v.save, now, high, lag);
  }

  /** The effects of the guard, as far as budgets go. */
  ghost predicate Harmless(e: Entry, times: Budgets, save: Save, now: real) {
    && !e.Tried? && !e.Began?
    && (e.Wrote? ==> save.Saved? && exists muted ::
      e.disk == Persisted(Fresh(now).(times := times, muted := muted), now, save.readings))
  }

  lemma GuardWrites(s: Sup, playing: bool, now: real, v: GuardView)
    ensures var g := Guard(s, playing, now, v);
      g.sup.times == s.times && forall i :: 0 <= i < |g.entries| ==> Harmless(g.entries[i], s.times, v.save, now)
  {
    var g := Guard(s, playing, now, v);
    forall i | 0 <= i < |g.entries| ensures Harmless(g.entries[i], s.times, v.save, now) {
      var e := g.entries[i];
      if e.Wrote? {
        assert e.disk == Persisted(Fresh(now).(times := s.times, muted := e.disk.muted), now, v.save.readings);
      }
    }
  }

  lemma {:induction false} EntriesBudget(s: Sup, t: Sup, log: seq<Entry>, entries: seq<Entry>, save: Save, now: real,
                                         high: real, lag: real)
    requires Charged(s, log, now, high, lag) && now <= high && TimelySave(save, now, high) && t.times == s.times
    requires forall i :: 0 <= i < |entries| ==> Harmless(entries[i], s.times, save, now)
    ensures Charged(t, log + entries, now, high, lag)
  {
    if entries == [] {
      assert log + entries == log;
    } else {
      var front, last := entries[..|entries| - 1], entries[|entries| - 1];
      EntriesBudget(s, t, log, front, save, now, high, lag);
      assert log + entries == (log + front) + [last];
      if last.Wrote? {
        var muted :| last.disk == Persisted(Fresh(now).(times := s.times, muted := muted), now, save.readings);
        var u := Fresh(now).(times := s.times, muted := muted);
        assert Charged(u, log + front, now, high, lag);
        WritePush(u, log + front, now, save.readings, now, high, lag);
      } else {
        PlainPush(t, log + front, last, now, high, lag);
      }
    }
  }

  predicate Plain(e: Entry) { !e.Wrote? && !e.Tried? && !e.Began? }

  /** What fault() does to the lists: nothing, pruning one, or pruning and charging it, and then
      perhaps the early write and the repair. */
  ghost predicate FaultCharge(s: Sup, f: Finding, now: real, save: Save, t: Sup, e: seq<Entry>) {
    var c := ClassOf(f.kind);
    var kept := Recent(s.times.At(c), now);
    && 1 <= |e| && Plain(e[0]) && !e[0].Spent?
    && if |e| == 1 then t.times == s.times || t.times == s.times.With(c, kept)
       else
         && |kept| < Limit(c) && t.times == s.times.With(c, kept + [now]) && e[1] == Spent(c, now)
         && (|e| == 2 || (&& |e| == 4 && save.Saved? && IsRepair(e[3], c) && e[3].at == now
                          && e[2] == Wrote(Persisted(t.(muted := s.muted), now, save.readings))))
  }

  lemma RecoverCharges(s: Sup, f: Finding, now: real, v: RepairView)
    ensures var o, c := Recover(s, f, now, v), ClassOf(f.kind);
      var kept := Recent(s.times.At(c), now);
      if |kept| >= Limit(c) then o.entries == [] && o.sup.times == s.times.With(c, kept)
      else
        && o.sup.times == s.times.With(c, kept + [now])
        && if v.save.SaveFailed? then o.entries == [Spent(c, now)]
           else o.entries == [Spent(c, now), Wrote(Persisted(o.sup.(muted := s.muted), now, v.save.readings)),
                              Tried(f, s.stage, now, v.called)]
  {
    hide Recent, Stamps;
  }

  lemma FaultCharges(s: Sup, f: Finding, now: real, v: RepairView)
    ensures var o := Fault(s, f, now, v); FaultCharge(s, f, now, v.save, o.sup, o.entries)
  {
    hide Recover, Recent, Persisted;
    var streak := if s.previousFault == Some(f.kind) then s.consecutive + 1 else 1;
    RecoverCharges(s.(phase := Degraded, previousFault := Some(f.kind), consecutive := streak), f, now, v);
  }

  /** Pruning a class's list, with or without charging a new attempt to it. */
  lemma ChargedMemory(s: Sup, c: Class, t: Sup, log: seq<Entry>, now: real, high: real, lag: real)
    requires Charged(s, log, now, high, lag) && 0.0 <= lag
    requires var kept := Recent(s.times.At(c), now);
      t.times == s.times || t.times == s.times.With(c, kept) || t.times == s.times.With(c, kept + [now])
    ensures Charged(t, log, now, high, lag)
    ensures Covers(Recent(s.times.At(c), now), Attempts(log, c), now, lag)
  {
    hide Safe;
    hide Covers, AtMost, Recent, Attempts;
    var list, history := s.times.At(c), Attempts(log, c);
    assert Listed(list, history, now, lag);
    PrunedCovers(list, history, now, lag);
    forall d ensures Listed(t.times.At(d), Attempts(log, d), now, lag) {
      assert Listed(s.times.At(d), Attempts(log, d), now, lag);
      assert d != c ==> t.times.At(d) == s.times.At(d);
    }
  }

  lemma RepairedAfter(t: Sup, e: Entry, c: Class, kept: seq<real>, log: seq<Entry>, now: real, save: Save, high: real,
                      lag: real)
    requires Charged(t, log, now, high, lag) && now <= high && 0.0 <= lag && save.Saved? && TimelySave(save, now, high)
    requires IsRepair(e, c) && e.at == now && Covers(kept, Attempts(log, c), now, lag)
    requires t.times.At(c) == kept + [now] && |kept| < Limit(c)
    ensures Charged(t, log + [Wrote(Persisted(t, now, save.readings))] + [e], now, high, lag)
  {
    var w := Wrote(Persisted(t, now, save.readings));
    WritePush(t, log, now, save.readings, now, high, lag);
    AttemptsPush(log, w);
    RepairPush(t, log + [w], e, c, kept, high, lag);
  }

  lemma ChargedAfter(s: Sup, f: Finding, now: real, save: Save, t: Sup, e: seq<Entry>, log: seq<Entry>, high: real,
                     lag: real)
    requires Charged(s, log, now, high, lag) && now <= high && 0.0 <= lag && TimelySave(save, now, high)
    requires FaultCharge(s, f, now, save, t, e)
    ensures Charged(t, log + e, now, high, lag)
  {
    hide Charged, Persisted, Recent, Covers, TimelySave, OnDisk;
    var c := ClassOf(f.kind);
    ChargedMemory(s, c, t, log, now, high, lag);
    PlainPush(t, log, e[0], now, high, lag);
    AttemptsPush(log, e[0]);
    if |e| > 1 {
      PlainPush(t, log + [e[0]], e[1], now, high, lag);
      AttemptsPush(log + [e[0]], e[1]);
    }
    if |e| > 2 {
      var u, before := t.(muted := s.muted), log + [e[0]] + [e[1]];
      SameTimes(t, u, before, now, high, lag);
      RepairedAfter(u, e[3], c, Recent(s.times.At(c), now), before, now, save, high, lag);
      SameTimes(u, t, before + [e[2]] + [e[3]], now, high, lag);
      assert log + e == before + [e[2]] + [e[3]];
    } else {
      assert log + e == if |e| > 1 then log + [e[0]] + [e[1]] else log + [e[0]];
    }
  }

  lemma SameTimes(s: Sup, t: Sup, log: seq<Entry>, now: real, high: real, lag: real)
    requires Charged(s, log, now, high, lag) && t.times == s.times
    ensures Charged(t, log, now, high, lag)
  {}

  lemma FaultBudget(s: Sup, f: Finding, now: real, v: RepairView, log: seq<Entry>, high: real, lag: real)
    requires Charged(s, log, now, high, lag) && now <= high && 0.0 <= lag && TimelySave(v.save, now, high)
    ensures Charged(Fault(s, f, now, v).sup, log + Fault(s, f, now, v).entries, now, high, lag)
  {
    var o := Fault(s, f, now, v);
    FaultCharges(s, f, now, v);
    ChargedAfter(s, f, now, v.save, o.sup, o.entries, log, high, lag);
  }

  lemma BudgetKept(now: real, v: TickView, at: real, save: Save, high: real, lag: real)
    requires now <= at <= high && 0.0 <= lag
    requires TimelySave(v.guard.save, now, high) && TimelySave(v.repair.save, now, high) && TimelySave(save, at, high)
    ensures TickKeeps((s, log) => Charged(s, log, now, high, lag), (s, log) => Charged(s, log, now, high, lag), now, v)
    ensures SaveKeeps((s, log) => Charged(s, log, now, high, lag),
                      (s, log) => Charged(s, log, now, high, lag), at, save)
  {
    forall s, playing, log | Charged(s, log, now, high, lag)
      ensures var g := Guard(s, playing, now, v.guard); Charged(g.sup, log + g.entries, now, high, lag)
    {
      GuardBudget(s, playing, now, v.guard, log, high, lag);
    }
    forall s, f, log | Charged(s, log, now, high, lag)
      ensures Charged(Fault(s, f, now, v.repair).sup, log + Fault(s, f, now, v.repair).entries, now, high, lag)
    {
      FaultBudget(s, f, now, v.repair, log, high, lag);
    }
    forall s, log, e: Entry | Charged(s, log, now, high, lag) && (e.Changed? || e.Quiet? || e.Calm?)
      ensures Charged(s, log + [e], now, high, lag)
    {
      PlainPush(s, log, e, now, high, lag);
    }
    forall s, log | Charged(s, log, now, high, lag) ensures Charged(s, log + SavedEntry(s, at, save), now, high, lag) {
      SavedBudget(s, log, at, save, now, high, lag);
    }
  }

  lemma SavedBudget(s: Sup, log: seq<Entry>, at: real, save: Save, now: real, high: real, lag: real)
    requires Charged(s, log, now, high, lag) && now <= at <= high && TimelySave(save, at, high)
    ensures Charged(s, log + SavedEntry(s, at, save), now, high, lag)
  {
    if save.Saved? { WritePush(s, log, at, save.readings, now, high, lag); } else { assert log + [] == log; }
  }

  lemma RestoredTimes(zero: real, log: seq<Entry>, now: real, wall: real, c: Class)
    ensures Restored(zero, OnDisk(None, log), now, wall).times.At(c) == Restamped(FileStamps(log, c), now, wall)
  {}

  lemma ChargedFromFile(s: Sup, log: seq<Entry>, clock: real, lag: real, now: real, wall: real, high: real)
    requires Safe(log, clock, clock, lag) && clock <= now <= wall && clock <= high && lag == LagOf(log)
    requires forall c :: s.times.At(c) == Restamped(FileStamps(log, c), now, wall)
    ensures Charged(s, log + [Began(now, wall)], now, high, lag + (wall - now))
  {
    hide Restamped, Attempts, LagOf;
    SafeLater(log, clock, clock, lag, now, high, lag + (wall - now));
    assert FileCovers(log[..|log|], clock, clock, lag) && log[..|log|] == log;
    forall c ensures Covers(s.times.At(c), Attempts(log, c), now, lag + (wall - now)) && AtMost(s.times.At(c), now) {
      RestampedCovers(FileStamps(log, c), Attempts(log, c), clock, lag, now, wall);
    }
    BeganPush(s, log, Began(now, wall), now, high, lag + (wall - now));
  }

  lemma BeganPush(s: Sup, log: seq<Entry>, e: Entry, now: real, high: real, lag: real)
    requires e.Began? && lag == LagOf(log) + (e.wall - e.now) && Safe(log, now, high, lag)
    requires forall c :: Listed(s.times.At(c), Attempts(log, c), now, lag)
    ensures Charged(s, log + [e], now, high, lag)
  {
    hide Covers, Capped, AtMost, Attempts, LagOf;
    AttemptsPush(log, e);
    assert FileCovers(log[..|log|], now, high, lag) && log[..|log|] == log;
    forall c ensures FileStamps(log + [e], c) == FileStamps(log, c) {}
    SafePush(log, e, now, high, lag);
  }

  lemma RestoredCharged(zero: real, log: seq<Entry>, clock: real, lag: real, now: real, wall: real, high: real)
    requires Safe(log, clock, clock, lag) && clock <= now <= wall && clock <= high && lag == LagOf(log)
    ensures Charged(Restored(zero, OnDisk(None, log), now, wall), log + [Began(now, wall)],
                    now, high, lag + (wall - now))
  {
    forall c { RestoredTimes(zero, log, now, wall, c); }
    ChargedFromFile(Restored(zero, OnDisk(None, log), now, wall), log, clock, lag, now, wall, high);
  }

  lemma RestampedCovers(stamps: seq<real>, history: seq<real>, clock: real, lag: real, now: real, wall: real)
    requires Covers(stamps, history, clock, lag) && AtMost(stamps, clock) && clock <= now <= wall
    ensures Covers(Restamped(stamps, now, wall), history, now, lag + (wall - now))
  {
    var more := lag + (wall - now);
    forall u: real | u > now + more - BUDGET_SECONDS
      ensures CountFrom(history, u) <= CountFrom(Restamped(stamps, now, wall), u - more) {
      RestoringKeepsTheYoung(stamps, now, wall, u - lag);
    }
  }

  lemma BootBudget(m: Machine, ev: Event)
    requires ev.Boot? && m.alive.None? && Timely(m, ev) && m.disk == OnDisk(None, m.log)
    requires Safe(m.log, m.clock, m.clock, LagOf(m.log)) && 0.0 <= LagOf(m.log)
    ensures var n := Step(m, ev);
      && Safe(n.log, n.clock, n.clock, LagOf(n.log)) && 0.0 <= LagOf(n.log)
      && (n.alive.Some? ==> Charged(n.alive.value, n.log, n.clock, n.clock, LagOf(n.log)))
  {
    hide Safe;
    var s, e := Restored(ev.zero, m.disk, ev.now, ev.wall), Began(ev.now, ev.wall);
    var more := LagOf(m.log) + (ev.wall - ev.now);
    RestoredCharged(ev.zero, m.log, m.clock, LagOf(m.log), ev.now, ev.wall, ev.end);
    SavedBudget(s, m.log + [e], ev.saveAt, ev.save, ev.now, ev.end, more);
    var log := m.log + [e] + SavedEntry(s, ev.saveAt, ev.save);
    ChargedLater(s, log, ev.now, ev.end, more, ev.end, ev.end);
    assert m.log + ([e] + SavedEntry(s, ev.saveAt, ev.save)) == log;
    assert Charged(s, log, ev.end, ev.end, more);
  }

  lemma RoundBudget(m: Machine, ev: Event)
    requires ev.Round? && m.alive.Some? && Timely(m, ev) && 0.0 <= LagOf(m.log)
    requires Charged(m.alive.value, m.log, m.clock, m.clock, LagOf(m.log))
    ensures var n := Step(m, ev);
      && Safe(n.log, n.clock, n.clock, LagOf(m.log))
      && (n.alive.Some? ==> Charged(n.alive.value, n.log, n.clock, n.clock, LagOf(m.log)))
  {
    hide Safe, LagOf;
    var now, high, lag := ev.now, ev.end, LagOf(m.log);
    ChargedLater(m.alive.value, m.log, m.clock, m.clock, lag, now, high);
    BudgetKept(now, ev.view, ev.saveAt, ev.save, high, lag);
    forall log, n: nat | Safe(log, now, high, lag) && n <= |log| ensures Safe(log[..n], now, high, lag) {
      SafePrefix(log, n, now, high, lag);
    }
    RoundKept((s, log) => Charged(s, log, now, high, lag), (s, log) => Charged(s, log, now, high, lag),
              log => Safe(log, now, high, lag), m, ev);
    var n := Step(m, ev);
    SafeLater(n.log, now, high, lag, high, high, lag);
    if n.alive.Some? { ChargedLater(n.alive.value, n.log, now, high, lag, high, high); }
  }

  /** Only a start of a process adds to the lag. */
  lemma {:induction false} LagKept(log: seq<Entry>, entries: seq<Entry>)
    requires forall i :: 0 <= i < |entries| ==> !entries[i].Began?
    ensures LagOf(log + entries) == LagOf(log)
  {
    if entries == [] {
      assert log + entries == log;
    } else {
      var all := log + entries;
      assert all[..|all| - 1] == log + entries[..|entries| - 1];
      LagKept(log, entries[..|entries| - 1]);
    }
  }

  lemma {:induction false} BudgetInvariant(events: seq<Event>)
    requires TimelyRun(events)
    ensures var m := Run(events);
      && 0.0 <= LagOf(m.log) && Safe(m.log, m.clock, m.clock, LagOf(m.log))
      && (m.alive.Some? ==> Charged(m.alive.value, m.log, m.clock, m.clock, LagOf(m.log)))
  {
    hide Charged, Safe;
    if events == [] {
      EmptyIsSafe();
    } else {
      var before := events[..|events| - 1];
      var m, ev := Run(before), events[|events| - 1];
      BudgetInvariant(before);
      DiskIsLastWritten(before);
      if ev.Boot? && m.alive.None? {
        BootBudget(m, ev);
      } else if ev.Round? && m.alive.Some? {
        RoundBudget(m, ev);
        RoundRepairsOnce(m.alive.value, ev);
        LagKept(m.log, RoundDone(m.alive.value, ev));
      } else if ev.Shutdown? && m.alive.Some? {
        LagKept(m.log, SavedEntry(m.alive.value, ev.now, ev.save));
        SavedBudget(m.alive.value, m.log, ev.now, ev.save, m.clock, ev.end, LagOf(m.log)) by {
          ChargedLater(m.alive.value, m.log, m.clock, m.clock, LagOf(m.log), m.clock, ev.end);
        }
        ChargedIsSafe(m.alive.value, Step(m, ev).log, m.clock, ev.end, LagOf(m.log));
        SafeLater(Step(m, ev).log, m.clock, ev.end, LagOf(m.log), ev.end, ev.end, LagOf(m.log));
      }
    }
  }

  lemma ChargedIsSafe(s: Sup, log: seq<Entry>, now: real, high: real, lag: real)
    requires Charged(s, log, now, high, lag)
    ensures Safe(log, now, high, lag)
  {}

  lemma EmptyIsSafe()
    ensures Safe([], 0.0, 0.0, 0.0)
  {}
}
