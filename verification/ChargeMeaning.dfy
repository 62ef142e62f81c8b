/** What it means that every listed attempt is a charge: no list counts too many, nothing waits
    too long, and without delays every stamp is the time of its charge. */
module ChargeMeaning {
  import opened Prelude
  import opened Findings
  import opened SupervisorSteps
  import opened SupervisorRuns
  import opened RepairBudgets
  import opened ChargedLists
  import opened ChargeHistory

  /** How late the charges may look by now. */
  function Looks(charges: seq<Charge>, slack: real): seq<real> {
    if charges == [] then []
    else
      var last := charges[|charges| - 1];
      Looks(charges[..|charges| - 1], slack) + [last.at + (slack - last.slack)]
  }

  lemma {:induction false} LooksAt(charges: seq<Charge>, slack: real)
    ensures |Looks(charges, slack)| == |charges|
    ensures forall i :: 0 <= i < |charges| ==> Looks(charges, slack)[i] == charges[i].at + (slack - charges[i].slack)
  {
    if charges != [] { LooksAt(charges[..|charges| - 1], slack); }
  }

  /** No list counts more attempts from any time on than were charged, each at most so much
      younger. */
  lemma {:induction false} CountsNoMore(list: seq<real>, charges: seq<Charge>, lag: real, slack: real, from: real)
    requires Known(list, charges, lag, slack)
    ensures CountFrom(list, from) <= CountFrom(Looks(charges, slack), from)
  {
    var at: seq<nat> :| Traced(list, charges, at, lag, slack);
    TracedCounts(list, charges, at, lag, slack, from);
  }

  lemma {:induction false} TracedCounts(list: seq<real>, charges: seq<Charge>, at: seq<nat>, lag: real, slack: real,
                                        from: real)
    requires Traced(list, charges, at, lag, slack)
    ensures CountFrom(list, from) <= CountFrom(Looks(charges, slack), from)
  {
    hide Looks, Traced;
    if list != [] {
      TracedFront(list, charges, at, lag, slack);
      var n, k := |list| - 1, at[|at| - 1];
      TracedBefore(list[..n], charges, at[..|at| - 1], lag, slack, k);
      TracedCounts(list[..n], charges[..k], at[..|at| - 1], lag, slack, from);
      assert charges[..k + 1] == charges[..k] + [charges[k]];
      LooksPush(charges[..k], charges[k], slack, from);
      MoreCounts(charges, slack, k + 1, from);
    }
  }

  lemma TracedBefore(list: seq<real>, charges: seq<Charge>, at: seq<nat>, lag: real, slack: real, k: nat)
    requires Traced(list, charges, at, lag, slack) && k <= |charges| && (at != [] ==> at[|at| - 1] < k)
    ensures Traced(list, charges[..k], at, lag, slack)
  {
    hide Stems;
    forall i | 0 <= i < |at| ensures at[i] < k && Stems(list[i], charges[..k][at[i]], lag, slack) {
      assert at[i] <= at[|at| - 1] && Stems(list[i], charges[at[i]], lag, slack);
    }
  }

  lemma LooksPush(charges: seq<Charge>, last: Charge, slack: real, from: real)
    ensures CountFrom(Looks(charges + [last], slack), from)
            == CountFrom(Looks(charges, slack), from) + if last.at + (slack - last.slack) >= from then 1 else 0
  {
    assert (charges + [last])[..|charges|] == charges;
    CountPush(Looks(charges, slack), last.at + (slack - last.slack));
  }

  lemma {:induction false} MoreCounts(charges: seq<Charge>, slack: real, n: nat, from: real)
    requires n <= |charges|
    ensures CountFrom(Looks(charges[..n], slack), from) <= CountFrom(Looks(charges, slack), from)
  {
    hide Looks;
    if n < |charges| {
      var front, last := charges[..|charges| - 1], charges[|charges| - 1];
      assert charges == front + [last] && front[..n] == charges[..n];
      LooksPush(front, last, slack, from);
      MoreCounts(front, slack, n, from);
    } else {
      assert charges[..n] == charges;
    }
  }

  /** Every listed time is that of a charge of its own. */
  ghost predicate Exact(list: seq<real>, charges: seq<Charge>) {
    exists at: seq<nat> :: ExactAt(list, charges, at)
  }

  ghost predicate ExactAt(list: seq<real>, charges: seq<Charge>, at: seq<nat>) {
    && |at| == |list| && (forall i, j :: 0 <= i < j < |at| ==> at[i] < at[j])
    && forall i :: 0 <= i < |at| ==> at[i] < |charges| && list[i] == charges[at[i]].at
  }

  predicate NothingLost(log: seq<Entry>) {
    forall i :: 0 <= i < |log| && log[i].Began? ==> log[i].wall == log[i].now
  }

  lemma {:induction false} NothingMoves(log: seq<Entry>, c: Class)
    requires NothingLost(log)
    ensures LagOf(log) == 0.0 && SlackOf(log, 0.0) == 0.0
    ensures forall k :: 0 <= k < |Charges(log, c, 0.0)| ==>
      Charges(log, c, 0.0)[k].lag == 0.0 && Charges(log, c, 0.0)[k].slack == 0.0
  {
    if log != [] { NothingMoves(log[..|log| - 1], c); }
  }

  lemma KnownIsExact(list: seq<real>, log: seq<Entry>, c: Class)
    requires NothingLost(log) && Known(list, Charges(log, c, 0.0), LagOf(log), SlackOf(log, 0.0))
    ensures Exact(list, Charges(log, c, 0.0))
  {
    NothingMoves(log, c);
    var at: seq<nat> :| Traced(list, Charges(log, c, 0.0), at, LagOf(log), SlackOf(log, 0.0));
    forall i | 0 <= i < |at| ensures at[i] < |Charges(log, c, 0.0)| && list[i] == Charges(log, c, 0.0)[at[i]].at {
      assert Stems(list[i], Charges(log, c, 0.0)[at[i]], LagOf(log), SlackOf(log, 0.0));
    }
    assert ExactAt(list, Charges(log, c, 0.0), at);
  }

  /** When saves take no time and restores lose none, every attempt in memory, and every stamp on
      file at any time, is the time of its charge. */
  lemma StampsAreTheCharges(events: seq<Event>, p: nat, c: Class)
    requires TimelyRun(events) && Swift(events, 0.0) && NothingLost(Run(events).log) && p <= |Run(events).log|
    ensures var m := Run(events);
      && Exact(FileStamps(m.log[..p], c), Charges(m.log[..p], c, 0.0))
      && (m.alive.Some? ==> Exact(m.alive.value.times.At(c), Charges(m.log, c, 0.0)))
  {
    hide Known, Exact, Charges, LagOf, SlackOf, OnDisk;
    var m := Run(events);
    ListedAreCharged(events, 0.0);
    assert FileKnown(m.log[..p], 0.0);
    KnownIsExact(FileStamps(m.log[..p], c), m.log[..p], c);
    if m.alive.Some? { KnownIsExact(m.alive.value.times.At(c), m.log, c); }
  }

  /** The deadline is at most the settling time after one of these. */
  predicate SettledBy(until: real, looks: seq<real>) {
    exists k :: 0 <= k < |looks| && until <= looks[k] + TRANSPORT_SETTLE_SECONDS
  }

  /** After a restart nothing waits longer for the transport to settle than since a charge, but
      for the time that saves since then took. */
  lemma RestartWaitsNoLonger(events: seq<Event>, delay: real, zero: real, now: real, wall: real)
    requires TimelyRun(events) && Swift(events, delay) && 0.0 <= delay && now <= wall
    ensures var m := Run(events);
      var s, charges := Restored(zero, m.disk, now, wall), Charges(m.log, Transport, delay);
      s.times.transport != [] ==> SettledBy(s.settleUntil, Looks(charges, SlackOf(m.log, delay) + delay))
  {
    hide Charges, LagOf, SlackOf, OnDisk, Restamped, Run, Latest, Looks, SettledBy, Known, FilesKnown;
    var m := Run(events);
    ListedAreCharged(events, delay);
    DiskIsLastWritten(events);
    FileIsKnown(m.log, delay);
    RestoredTimes(zero, m.log, now, wall, Transport);
    RestoredLooks(FileStamps(m.log, Transport), Charges(m.log, Transport, delay), LagOf(m.log),
                  SlackOf(m.log, delay) + delay, now, wall);
  }

  lemma RestoredLooks(stamps: seq<real>, charges: seq<Charge>, lag: real, slack: real, now: real, wall: real)
    requires Known(stamps, charges, lag, slack) && now <= wall
    ensures var times := Restamped(stamps, now, wall);
      times != [] ==> SettledBy(Latest(times) + TRANSPORT_SETTLE_SECONDS, Looks(charges, slack))
  {
    hide Restamped, Latest;
    var at: seq<nat> :| Traced(stamps, charges, at, lag, slack);
    var kept := RestoredIsKnown(stamps, charges, at, lag, slack, now, wall);
    var times := Restamped(stamps, now, wall);
    if times != [] {
      var i := LatestIsListed(times);
      assert Stems(times[i], charges[kept[i]], lag + (wall - now), slack);
      LooksAt(charges, slack);
      assert times[i] <= Looks(charges, slack)[kept[i]];
    }
  }

  lemma {:induction false} LatestIsListed(times: seq<real>) returns (i: nat)
    requires times != []
    ensures i < |times| && times[i] == Latest(times)
  {
    if |times| == 1 || times[0] >= Latest(times[1..]) {
      i := 0;
    } else {
      var j := LatestIsListed(times[1..]);
      i := j + 1;
    }
  }
}
