/** volume_handoff.VolumeTracker: the last stable volume, and the edges of Soloist's activity. */
module VolumeTracking {
  import opened Prelude

  const SETTLE_SECONDS: real := 0.6

  datatype Sample = Sample(volume: int, now: real)

  datatype Volumes = Volumes(saved: Option<int>, pending: Option<int>, since: real)

  datatype ActivityChange = ActivityChange(handoff: Option<int>, becameInactive: bool)

  predicate InRange(s: Sample) { 0 <= s.volume <= 100 }

  /** One sample: the new state, and what is returned. */
  function Step(t: Volumes, s: Sample): (Volumes, Answer<Option<int>>) {
    if !InRange(s) then (t, Raised)
    else if t.saved.None? then (t.(saved := Some(s.volume), pending := None), Got(Some(s.volume)))
    else if Some(s.volume) == t.saved then (t.(pending := None), Got(None))
    else if Some(s.volume) != t.pending then (t.(pending := Some(s.volume), since := s.now), Got(None))
    else if s.now - t.since < SETTLE_SECONDS then (t, Got(None))
    else (t.(saved := Some(s.volume), pending := None), Got(Some(s.volume)))
  }

  function After(t: Volumes, h: seq<Sample>): Volumes {
    if h == [] then t else Step(After(t, h[..|h| - 1]), h[|h| - 1]).0
  }

  class VolumeTracker {
    var saved: Option<int>
    var active: Option<bool>
    var pending: Option<int>
    var since: real

    function Abs(): Volumes
      reads this
    {
      Volumes(saved, pending, since)
    }

    constructor (saved: Option<int>, active: Option<bool>, pending: Option<int>, since: real)
      ensures Abs() == Volumes(saved, pending, since) && this.active == active
    {
      this.saved, this.active, this.pending, this.since := saved, active, pending, since;
    }

    method ObserveActivity(now: bool) returns (change: ActivityChange)
      modifies `active
      ensures active == Some(now)
      ensures change.handoff == if old(active) == Some(false) && now then saved else None
      ensures change.becameInactive <==> old(active) == Some(true) && !now
    {
      var previous := active;
      active := Some(now);
      return ActivityChange(if previous == Some(false) && now then saved else None, previous == Some(true) && !now);
    }

    method ObserveSourceVolume(volume: int, now: real) returns (r: Answer<Option<int>>)
      modifies `saved, `pending, `since
      ensures (Abs(), r) == Step(old(Abs()), Sample(volume, now))
    {
      if volume < 0 || volume > 100 { return Raised; }
      if saved.None? {
        saved, pending := Some(volume), None;
        return Got(Some(volume));
      }
      if Some(volume) == saved {
        pending := None;
        return Got(None);
      }
      if Some(volume) != pending {
        pending, since := Some(volume), now;
        return Got(None);
      }
      if now - since < SETTLE_SECONDS { return Got(None); }
      saved, pending := Some(volume), None;
      return Got(Some(volume));
    }
  }

  // ------------------------------------------------------------------ the debounce

  function Readable(h: seq<Sample>): (r: seq<Sample>)
    ensures forall i :: 0 <= i < |r| ==> InRange(r[i])
  {
    if h == [] then []
    else Readable(h[..|h| - 1]) + if InRange(h[|h| - 1]) then [h[|h| - 1]] else []
  }

  /** A rejected sample changes nothing, and does not interrupt a run of equal ones. */
  lemma {:induction false} RejectedIsIgnored(t: Volumes, h: seq<Sample>)
    ensures After(t, h) == After(t, Readable(h))
  {
    if h != [] {
      var front, last := h[..|h| - 1], h[|h| - 1];
      RejectedIsIgnored(t, front);
      if InRange(last) {
        assert Readable(h)[..|Readable(h)| - 1] == Readable(front);
      } else {
        assert Readable(h) == Readable(front);
      }
    }
  }

  /** Where the run of equal volumes at the end began. */
  function RunStart(h: seq<Sample>): (k: nat)
    requires h != []
    ensures k < |h| && forall i :: k <= i < |h| ==> h[i].volume == h[|h| - 1].volume
    ensures k > 0 ==> h[k - 1].volume != h[|h| - 1].volume
  {
    var last := |h| - 1;
    if last > 0 && h[last - 1].volume == h[last].volume then RunStart(h[..last]) else last
  }

  /** The pending volume is the run at the end of the history, since its first sample. */
  lemma {:induction false} PendingIsTheRun(t: Volumes, h: seq<Sample>)
    requires t.pending.None? && h != [] && forall i :: 0 <= i < |h| ==> InRange(h[i])
    ensures var now, last := After(t, h), h[|h| - 1];
      && now.saved.Some?
      && (if Some(last.volume) == now.saved then now.pending.None?
          else now.pending == Some(last.volume) && now.since == h[RunStart(h)].now)
  {
    var front := h[..|h| - 1];
    if front != [] { PendingIsTheRun(t, front); }
  }

  /** Exactly when a sample is saved: it is the first volume known, or it differs from the
      saved one and every sample for at least 0.6 seconds was equal to it. */
  lemma {:induction false} Debounce(t: Volumes, h: seq<Sample>)
    requires t.pending.None? && h != [] && forall i :: 0 <= i < |h| ==> InRange(h[i])
    ensures var before, last := After(t, h[..|h| - 1]), h[|h| - 1];
      var r := Step(before, last).1;
      && (r == Got(None) || r == Got(Some(last.volume)))
      && (r == Got(Some(last.volume)) <==>
            || before.saved.None?
            || (before.saved != Some(last.volume) && last.now - h[RunStart(h)].now >= SETTLE_SECONDS))
  {
    var front := h[..|h| - 1];
    if front != [] { PendingIsTheRun(t, front); }
  }

  /** So a change of the saved volume means that for 0.6 seconds nothing else was sampled. */
  lemma SavedWasStable(t: Volumes, h: seq<Sample>, i: nat)
    requires t.pending.None? && t.saved.Some? && h != [] && forall k :: 0 <= k < |h| ==> InRange(h[k])
    requires forall j, k :: 0 <= j <= k < |h| ==> h[j].now <= h[k].now
    requires After(t, h).saved != After(t, h[..|h| - 1]).saved
    requires i < |h| && h[i].now > h[|h| - 1].now - SETTLE_SECONDS
    ensures After(t, h).saved == Some(h[i].volume)
  {
    StaysKnown(t, h[..|h| - 1]);
    Debounce(t, h);
  }

  lemma {:induction false} StaysKnown(t: Volumes, h: seq<Sample>)
    requires t.saved.Some?
    ensures After(t, h).saved.Some?
  {
    if h != [] { StaysKnown(t, h[..|h| - 1]); }
  }

  /** And a volume sampled alone for 0.6 seconds is the saved one. */
  lemma StableIsSaved(t: Volumes, h: seq<Sample>, k: nat)
    requires t.pending.None? && h != [] && forall i :: 0 <= i < |h| ==> InRange(h[i])
    requires forall i, j :: 0 <= i <= j < |h| ==> h[i].now <= h[j].now
    requires k < |h| && forall i :: k <= i < |h| ==> h[i].volume == h[k].volume
    requires h[|h| - 1].now - h[k].now >= SETTLE_SECONDS
    ensures After(t, h).saved == Some(h[k].volume)
  {
    Debounce(t, h);
    var start := RunStart(h);
    assert start > 0 ==> h[start - 1].volume != h[|h| - 1].volume;
  }

  // ------------------------------------------------------------------------ activity

  /** What happens to the tracker: activity reports of Soloist, volumes of the other player, and
      the loss of Soloist's trace, after which its activity is unknown. */
  datatype Event = Report(active: bool) | Heard(sample: Sample) | Disconnected

  datatype Tracker = Tracker(volumes: Volumes, active: Option<bool>)

  function Next(t: Tracker, e: Event): Tracker {
    match e
    case Report(active) => t.(active := Some(active))
    case Heard(sample) => t.(volumes := Step(t.volumes, sample).0)
    case Disconnected => t.(active := None)
  }

  function Told(t: Tracker, h: seq<Event>): Tracker {
    if h == [] then t else Next(Told(t, h[..|h| - 1]), h[|h| - 1])
  }

  function Change(t: Tracker, e: Event): ActivityChange {
    match e
    case Report(now) =>
      ActivityChange(if t.active == Some(false) && now then t.volumes.saved else None, t.active == Some(true) && !now)
    case _ => ActivityChange(None, false)
  }

  /** One event; main forgets the activity when the trace is lost. */
  method Tell(tracker: VolumeTracker, e: Event) returns (change: ActivityChange)
    modifies tracker
    ensures var was := Tracker(old(tracker.Abs()), old(tracker.active));
      change == Change(was, e) && Tracker(tracker.Abs(), tracker.active) == Next(was, e)
  {
    change := ActivityChange(None, false);
    match e
    case Report(active) => change := tracker.ObserveActivity(active);
    case Heard(sample) => var _ := tracker.ObserveSourceVolume(sample.volume, sample.now);
    case Disconnected => tracker.active := None;
  }

  /** The tracker's life from any state, over any number of connections: what it announces at
      each event. */
  method Monitor(t: Tracker, h: seq<Event>) returns (changes: seq<ActivityChange>, left: Tracker)
    ensures |changes| == |h| && forall k :: 0 <= k < |h| ==> changes[k] == Change(Told(t, h[..k]), h[k])
    ensures left == Told(t, h)
  {
    hide Step, Change;
    var tracker := new VolumeTracker(t.volumes.saved, t.active, t.volumes.pending, t.volumes.since);
    changes := [];
    for i := 0 to |h|
      invariant fresh(tracker) && Tracker(tracker.Abs(), tracker.active) == Told(t, h[..i])
      invariant |changes| == i && forall k :: 0 <= k < i ==> changes[k] == Change(Told(t, h[..k]), h[k])
    {
      assert h[..i + 1][..i] == h[..i];
      var change := Tell(tracker, h[i]);
      changes := changes + [change];
    }
    assert h[..|h|] == h;
    return changes, Tracker(tracker.Abs(), tracker.active);
  }

  predicate Rises(t: Tracker, h: seq<Event>, k: int) {
    0 <= k < |h| && h[k] == Report(true) && Told(t, h[..k]).active == Some(false)
  }

  predicate Falls(t: Tracker, h: seq<Event>, k: int) {
    0 <= k < |h| && h[k] == Report(false) && Told(t, h[..k]).active == Some(true)
  }

  /** One connection: the trace is not lost from i to before j. */
  predicate Connected(h: seq<Event>, i: int, j: int) {
    forall k :: 0 <= k < |h| && i <= k < j ==> !h[k].Disconnected?
  }

  lemma ToldNext(t: Tracker, h: seq<Event>, k: int)
    requires 0 <= k < |h|
    ensures Told(t, h[..k + 1]) == Next(Told(t, h[..k]), h[k])
  {
    assert h[..k + 1][..k] == h[..k];
  }

  /** Within a connection activity cannot change between two moments without a report that
      changes it. */
  lemma {:induction false} Flips(t: Tracker, h: seq<Event>, i: int, j: int) returns (k: int)
    requires 0 <= i <= j <= |h| && Told(t, h[..i]).active.Some? && Told(t, h[..j]).active.Some?
    requires Told(t, h[..i]).active != Told(t, h[..j]).active && Connected(h, i, j)
    ensures i <= k < j && if Told(t, h[..i]).active.value then Falls(t, h, k) else Rises(t, h, k)
  {
    hide Told;
    ToldNext(t, h, j - 1);
    if Told(t, h[..j - 1]).active == Told(t, h[..i]).active {
      k := j - 1;
    } else {
      ActiveStays(t, h, i, j - 1);
      k := Flips(t, h, i, j - 1);
    }
  }

  lemma {:induction false} ActiveStays(t: Tracker, h: seq<Event>, i: int, j: int)
    requires 0 <= i <= j <= |h| && Told(t, h[..i]).active.Some? && Connected(h, i, j)
    ensures Told(t, h[..j]).active.Some?
  {
    if i < j {
      ToldNext(t, h, j - 1);
      ActiveStays(t, h, i, j - 1);
    }
  }

  lemma {:induction false} SavedStays(t: Tracker, h: seq<Event>, i: int, j: int)
    requires 0 <= i <= j <= |h| && Told(t, h[..i]).volumes.saved.Some?
    ensures Told(t, h[..j]).volumes.saved.Some?
  {
    if i < j {
      ToldNext(t, h, j - 1);
      SavedStays(t, h, i, j - 1);
    }
  }

  /** Handoffs are announced exactly where activity rises, as soon as a volume is known, and
      ends exactly where it falls; none comes on the first report of a connection. A handoff
      carries the volume saved at that moment, which is what the samples before it made it. */
  lemma {:induction false} Announcements(t: Tracker, h: seq<Event>, k: int)
    requires 0 <= k < |h|
    ensures var change := Change(Told(t, h[..k]), h[k]);
      && (change.handoff.Some? <==> Rises(t, h, k) && Told(t, h[..k]).volumes.saved.Some?)
      && (change.becameInactive <==> Falls(t, h, k))
      && (change.handoff.Some? ==> change.handoff == After(t.volumes, Samples(h[..k])).saved)
      && (change.handoff.Some? || change.becameInactive ==>
            || (t.active.Some? && Connected(h, 0, k))
            || exists i :: 0 <= i < k && h[i].Report? && Connected(h, i, k))
  {
    VolumesAreTheSamples(t, h[..k]);
    if Told(t, h[..k]).active.Some? { SomeReport(t, h, k); }
    hide Told;
  }

  function Samples(h: seq<Event>): seq<Sample> {
    if h == [] then []
    else
      var last := h[|h| - 1];
      Samples(h[..|h| - 1]) + if last.Heard? then [last.sample] else []
  }

  lemma {:induction false} VolumesAreTheSamples(t: Tracker, h: seq<Event>)
    ensures Told(t, h).volumes == After(t.volumes, Samples(h))
  {
    if h != [] {
      var front, last := h[..|h| - 1], h[|h| - 1];
      VolumesAreTheSamples(t, front);
      if last.Heard? {
        assert Samples(h)[..|Samples(h)| - 1] == Samples(front);
      } else {
        assert Samples(h) == Samples(front);
      }
    }
  }

  lemma {:induction false} SomeReport(t: Tracker, h: seq<Event>, k: int)
    requires 0 <= k <= |h| && Told(t, h[..k]).active.Some?
    ensures || (t.active.Some? && Connected(h, 0, k))
            || exists i :: 0 <= i < k && h[i].Report? && Connected(h, i, k)
  {
    if k > 0 {
      ToldNext(t, h, k - 1);
      if h[k - 1].Report? {
        assert Connected(h, k - 1, k);
      } else {
        SomeReport(t, h, k - 1);
        if i :| 0 <= i < k - 1 && h[i].Report? && Connected(h, i, k - 1) { assert Connected(h, i, k); }
      }
    }
  }

  /** Within a connection handoffs and ends alternate: between two handoffs activity ends, and
      between two ends it rises, which is announced exactly if a volume is known by then. So
      over a whole life two handoffs have an end or a lost trace between them. */
  lemma {:induction false} HandoffsAndEndsAlternate(t: Tracker, h: seq<Event>, i: int, j: int)
    requires 0 <= i < j < |h|
    ensures var first, second := Change(Told(t, h[..i]), h[i]), Change(Told(t, h[..j]), h[j]);
      && (first.handoff.Some? && second.handoff.Some? && Connected(h, i, j) ==>
            exists k :: i < k < j && Change(Told(t, h[..k]), h[k]).becameInactive)
      && (first.handoff.Some? && second.handoff.Some? ==>
            exists k :: i < k < j && (Change(Told(t, h[..k]), h[k]).becameInactive || h[k].Disconnected?))
      && (first.becameInactive && second.becameInactive && Connected(h, i, j) ==>
            exists k :: i < k < j && Rises(t, h, k)
              && (Change(Told(t, h[..k]), h[k]).handoff.Some? <==> Told(t, h[..k]).volumes.saved.Some?))
      && (first.becameInactive && second.becameInactive && Connected(h, i, j) && Told(t, h[..i]).volumes.saved.Some? ==>
            exists k :: i < k < j && Change(Told(t, h[..k]), h[k]).handoff.Some?)
  {
    Announcements(t, h, i);
    Announcements(t, h, j);
    ToldNext(t, h, i);
    hide Told;
    if (Rises(t, h, i) && Rises(t, h, j)) || (Falls(t, h, i) && Falls(t, h, j)) {
      if Connected(h, i, j) {
        var k := Flips(t, h, i + 1, j);
        Announcements(t, h, k);
        if Told(t, h[..i]).volumes.saved.Some? { SavedStays(t, h, i, k); }
      } else {
        var k :| 0 <= k < |h| && i <= k < j && h[k].Disconnected?;
        assert k != i;
      }
    }
  }

  /** And across a lost trace they need not: a report of inactivity after reconnecting is the
      first one again, and announces no end. */
  lemma ReconnectingRepeatsTheHandoff(saved: int)
    ensures var t := Tracker(Volumes(Some(saved), None, 0.0), None);
      var h := [Report(false), Report(true), Disconnected, Report(false), Report(true)];
      && Change(Told(t, h[..1]), h[1]).handoff == Some(saved) && Change(Told(t, h[..4]), h[4]).handoff == Some(saved)
      && forall k :: 0 <= k < |h| ==> !Change(Told(t, h[..k]), h[k]).becameInactive
  {
    var t := Tracker(Volumes(Some(saved), None, 0.0), None);
    var h := [Report(false), Report(true), Disconnected, Report(false), Report(true)];
    assert h[..0] == [];
    forall k | 0 <= k < |h| ensures Told(t, h[..k + 1]) == Next(Told(t, h[..k]), h[k]) { ToldNext(t, h, k); }
    assert h[..0 + 1] == h[..1] && h[..1 + 1] == h[..2] && h[..2 + 1] == h[..3] && h[..3 + 1] == h[..4];
  }
}
