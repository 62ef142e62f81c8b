/** The supervisor's ticks of Runtime.reconcile, one after another, with everything else that
    may happen to the outputs between them: what the idle controller's theorems say of them. */
module OutputRuns {
  import opened Prelude
  import opened Findings
  import opened OwnTone
  import opened Bridge
  import opened Intent
  import opened IdleOutputs
  import opened RuntimeOutputs
  import opened IntentRuns
  import P = PcmPlayback
  import I = IdleTiming

  /** A tick while Soloist was playing or not, which found this mode, and this source PCM if it
      asked; it may also end before it reaches Runtime.reconcile, on a fault or an exception. Or
      a locked section of someone else. */
  datatype Turn =
    | Tick(reached: bool, playing: bool, now: real, mode: Mode, pcm: Answer<bool>)
    | Meanwhile(s: Section)

  /** A tick; whether the PC sink was there and the source free, if it came to that; and what
      the idle controller observed in it, if it was asked at all. */
  datatype Glance =
    Glance(reached: bool, playing: bool, now: real, mode: Mode, sink: bool, free: bool, seen: Option<I.Obs>)

  function Observed(g: seq<Glance>): seq<I.Obs> {
    if g == [] then []
    else
      var last := g[|g| - 1];
      Observed(g[..|g| - 1]) + if last.seen.Some? then [last.seen.value] else []
  }

  /** The ticks among the turns, apart from what was observed in them. */
  function Ticks(turns: seq<Turn>): seq<(bool, bool, real, Mode)> {
    if turns == [] then []
    else
      var last := turns[|turns| - 1];
      Ticks(turns[..|turns| - 1]) + if last.Tick? then [(last.reached, last.playing, last.now, last.mode)] else []
  }

  function Seen(g: seq<Glance>): seq<(bool, bool, real, Mode)> {
    seq(|g|, i requires 0 <= i < |g| => (g[i].reached, g[i].playing, g[i].now, g[i].mode))
  }

  /** What keeps a playing tick from asking the idle controller. */
  predicate Hindered(g: Glance) { !g.reached || g.mode != Auto || !g.sink || !g.free }

  /** The controller is asked exactly in ticks that reach it in `auto`, unless playback is there
      and hindered; and it is told what the tick found. */
  predicate Honest(g: Glance) {
    && (g.seen.Some? <==> g.reached && g.mode == Auto && (!g.playing || !Hindered(g)))
    && (g.seen.Some? ==> g.seen.value.playing == g.playing && g.seen.value.now == g.now && g.seen.value.pcm.Some?)
  }

  predicate AllHonest(g: seq<Glance>) { forall i :: 0 <= i < |g| ==> Honest(g[i]) }

  lemma HonestPush(g: seq<Glance>, last: Glance)
    requires AllHonest(g) && Honest(last)
    ensures AllHonest(g + [last])
  {}

  lemma TicksPush(turns: seq<Turn>, last: Turn)
    ensures Ticks(turns + [last])
            == Ticks(turns) + if last.Tick? then [(last.reached, last.playing, last.now, last.mode)] else []
  {
    assert (turns + [last])[..|turns + [last]| - 1] == turns;
  }

  function Fresh(enabled: bool, idleSince: Option<real>): I.Controller {
    I.Controller(enabled, false, idleSince, 0.0, I.PLAYBACK_POLL_INTERVAL, false)
  }

  /** Runtime presumes a minute of idleness when it is constructed. */
  function Born(enabled: bool, at: real): I.Controller { Fresh(enabled, Some(at - I.IDLE_DISCONNECT_SECONDS)) }

  lemma ObservedPush(g: seq<Glance>, last: Glance)
    ensures Observed(g + [last]) == Observed(g) + if last.seen.Some? then [last.seen.value] else []
  {
    assert (g + [last])[..|g + [last]| - 1] == g;
  }

  lemma FaithfulPush(c: I.Controller, h: seq<I.Obs>, o: I.Obs)
    requires I.AllFaithful(c, h) && I.Faithful(I.After(c, h), o)
    ensures I.AllFaithful(c, h + [o]) && I.After(c, h + [o]) == I.Observe(I.After(c, h), o).c
  {
    hide I.Observe, I.Faithful;
    var all := h + [o];
    assert all[..|all| - 1] == h;
    forall n | 0 <= n < |all| ensures I.Faithful(I.After(c, all[..n]), all[n]) {
      if n < |h| { assert all[..n] == h[..n]; }
    }
  }

  /** The resume that a pause or a release owes is forgotten by no tick: between owing it and
      not owing it, one ran resume_pcm_playback to its normal end. */
  ghost predicate ResumeIsKept(c: I.Controller, h: seq<I.Obs>) {
    forall i :: 0 <= i <= |h| && I.Owes(I.After(c, h[..i])) && !I.Owes(I.After(c, h)) ==>
      exists n :: i <= n < |h| && I.ResumesAt(c, h, n) && h[n].attempt.resumed.Some?
  }

  lemma ResumeKept(c: I.Controller, h: seq<I.Obs>)
    requires I.AllFaithful(c, h)
    ensures ResumeIsKept(c, h)
  {
    hide I.After, I.Observe, I.AllFaithful, I.Owes;
    forall i | 0 <= i <= |h| && I.Owes(I.After(c, h[..i])) && !I.Owes(I.After(c, h))
      ensures exists n :: i <= n < |h| && I.ResumesAt(c, h, n) && h[n].attempt.resumed.Some?
    {
      I.ResumeIsNeverForgotten(c, h, i);
      var n :| i <= n < |h| && h[n].playing && h[n].attempt.Done? && h[n].attempt.resumed.Some?
               && I.Observe(I.After(c, h[..n]), h[n]).attempted;
      assert I.ResumesAt(c, h, n);
    }
  }

  /** The controller has gone through exactly what was observed. */
  ghost predicate Lived(c: I.Controller, start: I.Controller, g: seq<Glance>) {
    c == I.After(start, Observed(g)) && I.AllFaithful(start, Observed(g))
  }

  lemma LivedPush(c: I.Controller, next: I.Controller, start: I.Controller, g: seq<Glance>, last: Glance)
    requires Lived(c, start, g)
    requires match last.seen
             case None => next == c
             case Some(o) => I.Faithful(c, o) && next == I.Observe(c, o).c
    ensures Lived(next, start, g + [last])
  {
    hide I.Observe, I.Faithful, Observed;
    ObservedPush(g, last);
    if last.seen.Some? { FaithfulPush(start, Observed(g), last.seen.value); }
    else { assert Observed(g) + [] == Observed(g); }
  }

  /** One tick. */
  method Look(world: World, player: P.Player, outputs: IdleOutputController, t: Turn,
              ghost start: I.Controller, ghost g: seq<Glance>)
    returns (glance: Glance)
    requires t.Tick? && world.Valid() && Lived(outputs.Abs(), start, g)
    modifies world, world.lock, player, outputs
    ensures world.Valid() && Lived(outputs.Abs(), start, g + [glance]) && Honest(glance)
    ensures Seen([glance]) == [(t.reached, t.playing, t.now, t.mode)]
    ensures old(AllPermitted(world.writes, world.config)) ==> AllPermitted(world.writes, world.config)
  {
    hide UnderCurrent, ModeAfter, AllPermitted, I.Observe, I.Faithful, PcNeverDrops, OnlyPairSelected, Held, Desired,
      SelectedIds, Lived, SourceFree, SinkPresent;
    var sink, free := SinkPresent(world), SourceFree(world, world.calls + 1);
    var seen := None;
    if t.reached {
      var r;
      r, seen := Reconcile(world, player, outputs, t.playing, t.now, t.mode, t.pcm);
    }
    glance := Glance(t.reached, t.playing, t.now, t.mode, sink, free, seen);
    LivedPush(old(outputs.Abs()), outputs.Abs(), start, g, glance);
  }

  lemma NoneYet(enabled: bool, born: real)
    ensures Lived(Born(enabled, born), Born(enabled, born), []) && AllHonest([]) && Seen([]) == Ticks([])
  {}

  /** Any number of ticks, whatever OwnTone answers, whatever the command line and OwnTone's own
      interface do between them: the controller goes through the history of what it observed,
      so every theorem about histories speaks of it. */
  method Drive(config: Config, replies: nat -> Reply, tone: seq<Output>, initial: Mode,
               playerReplies: nat -> P.Reply, patience: nat, enabled: bool, born: real, turns: seq<Turn>)
    returns (g: seq<Glance>, final: I.Controller, writes: seq<Write>)
    requires ValidConfig(config)
    ensures Seen(g) == Ticks(turns) && AllHonest(g)
    ensures final == I.After(Born(enabled, born), Observed(g))
    ensures I.AllFaithful(Born(enabled, born), Observed(g))
    ensures ResumeIsKept(Born(enabled, born), Observed(g))
    ensures AllPermitted(writes, config) && UnderCurrent(initial, writes)
  {
    hide UnderCurrent, ModeAfter, AllPermitted, I.Observe, I.Faithful, I.After, I.AllFaithful, AllHonest, Honest, Ticks;
    NoneYet(enabled, born);
    var world := new World(config, replies, tone, initial);
    var player := new P.Player(playerReplies, patience);
    var outputs := new IdleOutputController(enabled, Some(born - I.IDLE_DISCONNECT_SECONDS));
    ghost var start := Born(enabled, born);
    NoWritesYet(initial, config);
    g := [];
    assert turns[..0] == [];
    for t := 0 to |turns|
      invariant fresh(world) && fresh(world.lock) && fresh(player) && fresh(outputs)
      invariant world.Valid() && world.config == config && world.initial == initial
      invariant AllPermitted(world.writes, config)
      invariant Seen(g) == Ticks(turns[..t]) && AllHonest(g)
      invariant Lived(outputs.Abs(), start, g)
    {
      TicksPush(turns[..t], turns[t]);
      assert turns[..t] + [turns[t]] == turns[..t + 1];
      match turns[t]
      case Meanwhile(s) => Play(world, player, s);
      case Tick(_, _, _, _, _) =>
        var glance := Look(world, player, outputs, turns[t], start, g);
        assert Seen(g + [glance]) == Seen(g) + Seen([glance]);
        HonestPush(g, glance);
        g := g + [glance];
    }
    assert turns[..|turns|] == turns;
    ResumeKept(start, Observed(g));
    return g, outputs.Abs(), world.writes;
  }

  // ---------------------------------------------------------- the idle minute, in ticks

  predicate Timely(g: seq<Glance>) {
    forall i, j :: 0 <= i <= j < |g| ==> g[i].now <= g[j].now
  }

  /** The ticks that asked the controller. */
  function Asked(g: seq<Glance>): seq<nat> {
    if g == [] then []
    else
      var last := |g| - 1;
      Asked(g[..last]) + if g[last].seen.Some? then [last] else []
  }

  lemma {:induction false} AskedAt(g: seq<Glance>)
    ensures var at, h := Asked(g), Observed(g);
      && |at| == |h|
      && (forall n :: 0 <= n < |at| ==> at[n] < |g| && g[at[n]].seen == Some(h[n]))
      && (forall m, n :: 0 <= m < n < |at| ==> at[m] < at[n])
      && (forall i :: 0 <= i < |g| && g[i].seen.Some? ==> i in at)
  {
    if g != [] { AskedAt(g[..|g| - 1]); }
  }

  lemma ObservedTimely(g: seq<Glance>, last: Glance)
    requires Timely(g + [last]) && AllHonest(g) && Honest(last) && last.seen.Some?
    ensures I.Timely(Observed(g) + [last.seen.value])
  {
    AskedAt(g);
    var at, h, all := Asked(g), Observed(g) + [last.seen.value], g + [last];
    forall m, n | 0 <= m <= n < |h| ensures h[m].now <= h[n].now {
      var i := if m < |at| then at[m] else |g|;
      var j := if n < |at| then at[n] else |g|;
      assert i <= j && all[i].now <= all[j].now;
      assert h[m].now == all[i].now && h[n].now == all[j].now;
    }
  }

  /** A minute of ticks lies behind `now`, and Soloist was idle in every one of them. */
  ghost predicate IdleMinute(g: seq<Glance>, now: real) {
    exists k :: 0 <= k < |g| && g[k].now <= now - I.IDLE_DISCONNECT_SECONDS
                && forall i :: k <= i < |g| ==> !g[i].playing
  }

  /** The tick at which the last minute begins. */
  predicate Begins(g: seq<Glance>, now: real, k: int) {
    && 0 <= k < |g| && g[k].now <= now - I.IDLE_DISCONNECT_SECONDS
    && forall j :: k < j < |g| ==> g[j].now > now - I.IDLE_DISCONNECT_SECONDS
  }

  lemma {:induction false} SomeTickBegins(g: seq<Glance>, now: real, m: int) returns (k: int)
    requires 0 <= m < |g| && g[m].now <= now - I.IDLE_DISCONNECT_SECONDS
    ensures m <= k && Begins(g, now, k)
    decreases |g| - m
  {
    if j :| m < j < |g| && g[j].now <= now - I.IDLE_DISCONNECT_SECONDS {
      k := SomeTickBegins(g, now, j);
    } else {
      k := m;
    }
  }

  /** When a release comes, a tick of the last minute that was playing was hindered: it ended
      early, found another mode, a missing PC sink, or a guarded source in use. Exactly when a
      whole minute of idle ticks lies behind the release: when the process has ticked that long,
      and no playing tick since then was hindered. */
  lemma {:induction false} IdleMinuteInTicks(c: I.Controller, g: seq<Glance>, last: Glance)
    requires Timely(g + [last]) && c.enabled && AllHonest(g)
    requires Honest(last) && last.seen.Some? && I.Observe(I.After(c, Observed(g)), last.seen.value).releasing
    ensures forall i :: 0 <= i < |g| && g[i].now > last.now - I.IDLE_DISCONNECT_SECONDS && g[i].playing ==>
      Hindered(g[i])
    ensures IdleMinute(g, last.now) <==>
      exists k :: Begins(g, last.now, k) && forall i :: k <= i < |g| && g[i].playing ==> !Hindered(g[i])
  {
    hide I.Observe, Observed, Asked;
    var at, h := Asked(g), Observed(g);
    AskedAt(g);
    ObservedTimely(g, last);
    I.ReleaseNeedsAnIdleMinute(c, h, last.seen.value);
    forall i | 0 <= i < |g| && g[i].playing && !Hindered(g[i])
      ensures exists j :: i < j < |g| && g[j].now <= last.now - I.IDLE_DISCONNECT_SECONDS
    {
      var n :| 0 <= n < |at| && at[n] == i;
      assert h[n].playing;
      var m :| n < m < |h| && h[m].now <= last.now - I.IDLE_DISCONNECT_SECONDS;
      assert i < at[m] < |g| && g[at[m]].now == h[m].now;
    }
    forall i | 0 <= i < |g| && g[i].now > last.now - I.IDLE_DISCONNECT_SECONDS && g[i].playing ensures Hindered(g[i]) {
      TicksLater(g, last, i);
    }
    if m :| 0 <= m < |g| && g[m].now <= last.now - I.IDLE_DISCONNECT_SECONDS
            && forall i :: m <= i < |g| ==> !g[i].playing
    {
      var k := SomeTickBegins(g, last.now, m);
    }
  }

  lemma TicksLater(g: seq<Glance>, last: Glance, i: int)
    requires Timely(g + [last]) && 0 <= i < |g|
    ensures forall j :: i <= j < |g| ==> g[i].now <= g[j].now
  {
    var all := g + [last];
    forall j | i <= j < |g| ensures g[i].now <= g[j].now { assert all[i].now <= all[j].now; }
  }

  /** Playback under another mode is not observed: the first idle tick back in `auto` releases
      at once, half a minute after it. */
  lemma UnaskedPlaybackCounts() returns (c: I.Controller, g: seq<Glance>, last: Glance)
    ensures Timely(g + [last]) && c == Born(true, 0.0)
    ensures Honest(last) && AllHonest(g)
    ensures last.seen.Some? && I.Observe(I.After(c, Observed(g)), last.seen.value).releasing
    ensures exists i :: 0 <= i < |g| && g[i].playing && g[i].now == last.now - 30.0
  {
    c := Born(true, 0.0);
    var o := I.Obs(false, 0.0, Some(Got(false)), I.Declined, I.PipePaused, I.Released);
    var a := Glance(true, false, 0.0, Auto, true, true, Some(o));
    var b := Glance(true, true, 30.0, Manual, true, true, None);
    g, last := [a, b], a.(now := 60.0, seen := Some(o.(now := 60.0)));
    assert g == [] + [a] + [b];
    ObservedPush([], a);
    ObservedPush([] + [a], b);
    assert Observed(g) == [o] && [o][..0] == [];
    assert I.After(c, [o]).idleSince == Some(-60.0);
    assert g[1].playing;
  }

  /** A process that died five seconds after it had connected active playback is followed by
      one that presumes a minute of idleness, and releases in its first tick. */
  lemma RestartReleasesAtOnce() returns (before: Glance, born: real, first: Glance)
    ensures Honest(before) && before.playing && !Hindered(before) && before.now == born - 5.0
    ensures Honest(first) && first.now == born && first.seen.Some?
    ensures I.Observe(Born(true, born), first.seen.value).releasing
  {
    born := 100.0;
    var busy := I.Obs(true, 95.0, Some(Got(true)), I.Done(false, None), I.NotAutomatic, I.Kept);
    var idle := I.Obs(false, born, Some(Got(false)), I.Declined, I.PipePaused, I.Released);
    before := Glance(true, true, 95.0, Auto, true, true, Some(busy));
    first := Glance(true, false, born, Auto, true, true, Some(idle));
  }
}
