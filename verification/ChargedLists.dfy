/** Lists of attempts that stem from charges, and what pruning, saving, restoring and charging
    make of them. */
module ChargedLists {
  import opened SupervisorSteps

  /** An attempt charged at `at`, whether or not its repair then ran: the time lost in restores
      by then, and the time that saves before these restores may have added. */
  datatype Charge = Charge(at: real, lag: real, slack: real)

  /** The listed time is that of the charge, older by the time lost since then at most, and
      younger by the time added since then at most. */
  predicate Stems(time: real, from: Charge, lag: real, slack: real) {
    from.at - (lag - from.lag) <= time <= from.at + (slack - from.slack)
  }

  /** `at` tells which charge each listed time is; no charge is listed twice. */
  ghost predicate Traced(list: seq<real>, charges: seq<Charge>, at: seq<nat>, lag: real, slack: real) {
    && |at| == |list| && (forall i, j :: 0 <= i < j < |at| ==> at[i] < at[j])
    && forall i :: 0 <= i < |at| ==> at[i] < |charges| && Stems(list[i], charges[at[i]], lag, slack)
  }

  ghost predicate Known(list: seq<real>, charges: seq<Charge>, lag: real, slack: real) {
    exists at: seq<nat> :: Traced(list, charges, at, lag, slack)
  }

  // ---------------------------------------------------------------- what happens to a list

  lemma TracedPush(list: seq<real>, charges: seq<Charge>, at: seq<nat>, lag: real, slack: real, time: real, k: nat)
    requires Traced(list, charges, at, lag, slack) && k < |charges| && Stems(time, charges[k], lag, slack)
    requires at != [] ==> at[|at| - 1] < k
    ensures Traced(list + [time], charges, at + [k], lag, slack)
  {
    hide Stems;
    forall i | 0 <= i < |at| ensures at[i] < k { assert at[i] <= at[|at| - 1]; }
  }

  lemma TracedFront(list: seq<real>, charges: seq<Charge>, at: seq<nat>, lag: real, slack: real)
    requires Traced(list, charges, at, lag, slack) && list != []
    ensures at != [] && Traced(list[..|list| - 1], charges, at[..|at| - 1], lag, slack)
    ensures at[|at| - 1] < |charges| && Stems(list[|list| - 1], charges[at[|at| - 1]], lag, slack)
    ensures |at| > 1 ==> at[|at| - 2] < at[|at| - 1]
  {
    hide Stems;
  }

  lemma {:induction false} PrunedIsKnown(list: seq<real>, charges: seq<Charge>, at: seq<nat>, lag: real, slack: real,
                                         now: real) returns (kept: seq<nat>)
    requires Traced(list, charges, at, lag, slack)
    ensures Traced(Recent(list, now), charges, kept, lag, slack)
    ensures kept != [] ==> at != [] && kept[|kept| - 1] <= at[|at| - 1]
  {
    hide Stems, Traced;
    if list == [] {
      kept := [];
      assert Traced([], charges, [], lag, slack) by { NoneTraced(charges, lag, slack); }
    } else {
      var n := |list| - 1;
      TracedFront(list, charges, at, lag, slack);
      kept := PrunedIsKnown(list[..n], charges, at[..|at| - 1], lag, slack, now);
      if now - list[n] < BUDGET_SECONDS {
        TracedPush(Recent(list[..n], now), charges, kept, lag, slack, list[n], at[|at| - 1]);
        kept := kept + [at[|at| - 1]];
      }
    }
  }

  lemma NoneTraced(charges: seq<Charge>, lag: real, slack: real)
    ensures Traced([], charges, [], lag, slack)
  {}

  lemma {:induction false} RestoredIsKnown(stamps: seq<real>, charges: seq<Charge>, at: seq<nat>, lag: real,
                                           slack: real, now: real, wall: real) returns (kept: seq<nat>)
    requires Traced(stamps, charges, at, lag, slack) && now <= wall
    ensures Traced(Restamped(stamps, now, wall), charges, kept, lag + (wall - now), slack)
    ensures kept != [] ==> at != [] && kept[|kept| - 1] <= at[|at| - 1]
  {
    hide Traced;
    if stamps == [] {
      kept := [];
      NoneTraced(charges, lag + (wall - now), slack);
    } else {
      var n, later := |stamps| - 1, lag + (wall - now);
      TracedFront(stamps, charges, at, lag, slack);
      kept := RestoredIsKnown(stamps[..n], charges, at[..|at| - 1], lag, slack, now, wall);
      if 0.0 <= wall - stamps[n] < BUDGET_SECONDS {
        var time, k := now - (wall - stamps[n]), at[|at| - 1];
        TracedPush(Restamped(stamps[..n], now, wall), charges, kept, later, slack, time, k);
        kept := kept + [k];
      }
    }
  }

  lemma StampedIsKnown(list: seq<real>, charges: seq<Charge>, at: seq<nat>, lag: real, slack: real, now: real,
                       readings: nat -> real, first: nat, delay: real)
    requires Traced(list, charges, at, lag, slack) && SwiftReadings(readings, now, delay)
    ensures Traced(Stamps(list, now, readings, first), charges, at, lag, slack + delay)
  {
    StampsAt(list, now, readings, first);
    forall i | 0 <= i < |at|
      ensures Stems(Stamps(list, now, readings, first)[i], charges[at[i]], lag, slack + delay)
    {
      assert Stems(list[i], charges[at[i]], lag, slack);
      assert now <= readings(first + i) <= now + delay;
    }
  }

  /** The readings of a save come at once, or within the delay. */
  ghost predicate SwiftReadings(readings: nat -> real, at: real, delay: real) {
    forall i: nat :: at <= readings(i) <= at + delay
  }

  lemma ChargedIsKnown(list: seq<real>, charges: seq<Charge>, at: seq<nat>, now: real, lag: real, slack: real)
    requires Traced(list, charges, at, lag, slack)
    ensures Traced(list + [now], charges + [Charge(now, lag, slack)], at + [|charges|], lag, slack)
  {
    var all := charges + [Charge(now, lag, slack)];
    forall i | 0 <= i < |at| ensures Stems((list + [now])[i], all[at[i]], lag, slack) {
      assert Stems(list[i], charges[at[i]], lag, slack);
    }
  }

  /** Later charges, more time lost and more added change nothing of it. */
  lemma KnownLater(list: seq<real>, charges: seq<Charge>, grown: seq<Charge>, lag: real, slack: real, lost: real,
                   added: real)
    requires Known(list, charges, lag, slack) && charges <= grown && lag <= lost && slack <= added
    ensures Known(list, grown, lost, added)
  {
    var at: seq<nat> :| Traced(list, charges, at, lag, slack);
    forall i | 0 <= i < |at| ensures at[i] < |grown| && Stems(list[i], grown[at[i]], lost, added) {
      assert Stems(list[i], charges[at[i]], lag, slack);
    }
    assert Traced(list, grown, at, lost, added);
  }
}
