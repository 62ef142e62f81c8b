/** The idle output controller as a step function of one observation, and what its clocks
    guarantee over whole histories. */
module IdleTiming {
  import opened Prelude

  const PLAYBACK_POLL_INTERVAL: real := 5.0
  const IDLE_PIPE_PAUSE_SECONDS: real := 15.0
  const IDLE_DISCONNECT_SECONDS: real := 60.0
  const LONGEST_RETRY: real := 60.0

  datatype Controller = Controller(enabled: bool, released: bool, idleSince: Option<real>,
                                   retryAt: real, retryDelay: real, pipePaused: bool)

  /** What the locked section of active playback does: leave everything alone, finish (with
      the result of the PCM resume, if one was due), or raise. */
  datatype Attempt = Declined | Done(reconnected: bool, resumed: Option<bool>) | Failed

  datatype PauseStep = NotAutomatic | PipePaused | PauseFailed

  datatype ReleaseStep = Kept | NothingSelected | Released | ReleaseFailed

  /** One observation, and what each locked section would do if it is reached. `pcm` is the
      answer of the source PCM check, if the caller supplies one. */
  datatype Obs = Obs(playing: bool, now: real, pcm: Option<Answer<bool>>, attempt: Attempt, pause: PauseStep,
    release: ReleaseStep)

  datatype Step = Step(c: Controller, result: Answer<bool>, attempted: bool, pausing: bool, releasing: bool)

  function Min(a: real, b: real): real { if a <= b then a else b }

  function Active(c: Controller, o: Obs): Step {
    var awake := c.(idleSince := None);
    if o.now < c.retryAt then Step(awake, Got(false), false, false, false)
    else
      match o.attempt
      case Declined => Step(awake, Got(false), true, false, false)
      case Done(reconnected, resumed) =>
        Step(awake.(pipePaused := false, released := false, retryAt := 0.0, retryDelay := PLAYBACK_POLL_INTERVAL),
             Got(reconnected || resumed == Some(true)), true, false, false)
      case Failed =>
        Step(awake.(retryAt := o.now + c.retryDelay, retryDelay := Min(LONGEST_RETRY, c.retryDelay * 2.0)), Raised,
          true, false, false)
  }

  function Releasing(c: Controller, o: Obs, pausing: bool): Step
    requires c.idleSince.Some?
  {
    if o.now - c.idleSince.value < IDLE_DISCONNECT_SECONDS then Step(c, Got(false), false, pausing, false)
    else
      match o.release
      case Kept => Step(c, Got(false), false, pausing, true)
      case ReleaseFailed => Step(c, Raised, false, pausing, true)
      case _ => Step(c.(released := true), Got(false), false, pausing, true)
  }

  function Pausing(c: Controller, o: Obs): Step
    requires c.idleSince.Some?
  {
    if c.pipePaused || o.now - c.idleSince.value < IDLE_PIPE_PAUSE_SECONDS then Releasing(c, o, false)
    else
      match o.pause
      case NotAutomatic => Releasing(c, o, true)
      case PipePaused => Releasing(c.(pipePaused := true), o, true)
      case PauseFailed => Step(c, Raised, false, true, false)
  }

  /** IdleOutputController.observe. */
  function Observe(c: Controller, o: Obs): Step {
    if o.playing then Active(c, o)
    else
      var calm := c.(retryAt := 0.0, retryDelay := PLAYBACK_POLL_INTERVAL);
      if !c.enabled then Step(calm, Got(false), false, false, false)
      else
        var since := if c.idleSince.None? then o.now else c.idleSince.value;
        var idle := calm.(idleSince := Some(since));
        if o.now - since >= IDLE_PIPE_PAUSE_SECONDS && o.pcm.Some? && o.pcm.value != Got(false) then
          if o.pcm.value.Raised? then Step(idle, Raised, false, false, false)
          else Step(idle.(idleSince := None), Got(false), false, false, false)
        else Pausing(idle, o)
  }

  function After(c: Controller, h: seq<Obs>): Controller {
    if h == [] then c else Observe(After(c, h[..|h| - 1]), h[|h| - 1]).c
  }

  /** The observation times never decrease. */
  predicate Timely(h: seq<Obs>) {
    forall i, j :: 0 <= i <= j < |h| ==> h[i].now <= h[j].now
  }

  // -------------------------------------------------------------------- idle timing

  /** From position k on, everything was idle, and once 15 seconds of it had passed no check
      found the source PCM active. */
  predicate IdleFrom(h: seq<Obs>, k: int, since: real) {
    forall i :: 0 <= k <= i < |h| ==>
      && !h[i].playing
      && (h[i].now - since >= IDLE_PIPE_PAUSE_SECONDS ==> h[i].pcm != Some(Got(true)))
  }

  /** The idle clock runs from the observation at k, or from the presumed time at construction. */
  predicate Started(c: Controller, h: seq<Obs>, k: int, since: real) {
    || (k == 0 && c.idleSince == Some(since))
    || (0 <= k < |h| && h[k].now == since)
  }

  /** How one observation moves the idle clock. */
  lemma ClockShape(c: Controller, o: Obs)
    ensures var s := Observe(c, o);
      && (s.c.idleSince.Some? && c.enabled ==>
            && !o.playing && s.c.idleSince.value == (if c.idleSince.Some? then c.idleSince.value else o.now)
            && (o.now - s.c.idleSince.value >= IDLE_PIPE_PAUSE_SECONDS ==> o.pcm != Some(Got(true))))
      && (s.releasing || s.pausing ==>
            && c.enabled && !o.playing && s.c.idleSince.Some? && (o.pcm.Some? ==> o.pcm.value == Got(false))
            && o.now - s.c.idleSince.value >=
               (if s.releasing then IDLE_DISCONNECT_SECONDS else IDLE_PIPE_PAUSE_SECONDS))
  {}

  lemma {:induction false} IdleClock(c: Controller, h: seq<Obs>) returns (k: int)
    requires After(c, h).idleSince.Some? && c.enabled
    ensures 0 <= k && IdleFrom(h, k, After(c, h).idleSince.value) && Started(c, h, k, After(c, h).idleSince.value)
  {
    if h == [] {
      k := 0;
    } else {
      hide Observe;
      var front, last := h[..|h| - 1], h[|h| - 1];
      StaysEnabled(c, front);
      ClockShape(After(c, front), last);
      if After(c, front).idleSince.Some? {
        k := IdleClock(c, front);
      } else {
        k := |front|;
      }
    }
  }

  lemma {:induction false} StaysEnabled(c: Controller, h: seq<Obs>)
    ensures After(c, h).enabled == c.enabled
  {
    if h != [] { StaysEnabled(c, h[..|h| - 1]); }
  }

  /** A whole minute of idleness lies behind a release, and 15 seconds behind a pause: every
      observation in the last 60 (15) seconds reported idle, none of the last 45 seconds
      found the source PCM active, and the check made now found it inactive. The only
      exception is idleness presumed at construction. */
  lemma ActsOnlyWhenIdle(c: Controller, h: seq<Obs>, o: Obs)
    requires Timely(h + [o]) && c.enabled
    ensures var s := Observe(After(c, h), o);
      s.releasing || s.pausing ==>
        && !o.playing && (o.pcm.Some? ==> o.pcm.value == Got(false))
        && exists k, since ::
             && 0 <= k && Started(c, h + [o], k, since) && IdleFrom(h + [o], k, since)
             && o.now - since >= (if s.releasing then IDLE_DISCONNECT_SECONDS else IDLE_PIPE_PAUSE_SECONDS)
  {
    hide Observe;
    var s := Observe(After(c, h), o);
    ClockShape(After(c, h), o);
    if s.releasing || s.pausing {
      assert (h + [o])[..|h + [o]| - 1] == h;
      var k := IdleClock(c, h + [o]);
      var since := s.c.idleSince.value;
      assert Started(c, h + [o], k, since) && IdleFrom(h + [o], k, since);
    }
  }

  /** A minute of observations lies behind `now`, every one of them idle. */
  ghost predicate IdleMinute(h: seq<Obs>, now: real) {
    exists k :: 0 <= k < |h| && h[k].now <= now - IDLE_DISCONNECT_SECONDS && forall i :: k <= i < |h| ==> !h[i].playing
  }

  ghost predicate MinuteOld(h: seq<Obs>, now: real) {
    exists k :: 0 <= k < |h| && h[k].now <= now - IDLE_DISCONNECT_SECONDS
  }

  /** At a release every observation of the last minute was idle, and no check of its last 45
      seconds found the source PCM active. A whole minute of idle observations lies behind it
      exactly if there are observations that old; if not, all there are were idle and the rest
      of the minute is the one presumed at construction. */
  lemma {:induction false} ReleaseNeedsAnIdleMinute(c: Controller, h: seq<Obs>, o: Obs)
    requires Timely(h + [o]) && c.enabled && Observe(After(c, h), o).releasing
    ensures forall i :: 0 <= i < |h| && h[i].now > o.now - IDLE_DISCONNECT_SECONDS ==> !h[i].playing
    ensures forall i :: 0 <= i < |h| && h[i].now > o.now - (IDLE_DISCONNECT_SECONDS - IDLE_PIPE_PAUSE_SECONDS) ==>
      h[i].pcm != Some(Got(true))
    ensures IdleMinute(h, o.now) <==> MinuteOld(h, o.now)
    ensures !MinuteOld(h, o.now) ==> c.idleSince.Some? && c.idleSince.value <= o.now - IDLE_DISCONNECT_SECONDS
    ensures forall n :: 0 <= n < |h| && h[n].playing ==>
      exists m :: n < m < |h| && h[m].now <= o.now - IDLE_DISCONNECT_SECONDS
  {
    hide Observe;
    ActsOnlyWhenIdle(c, h, o);
    var all := h + [o];
    var k, since :| 0 <= k && Started(c, all, k, since) && IdleFrom(all, k, since)
                    && o.now - since >= IDLE_DISCONNECT_SECONDS;
    forall i | 0 <= i < |h| ensures all[i] == h[i] {}
    forall i | 0 <= i < |h| && k <= i ensures !h[i].playing { assert !all[i].playing; }
    if k < |h| && h[k].now == since {
      forall i | 0 <= i < k ensures h[i].now <= since { assert all[i].now <= all[k].now; }
      assert IdleMinute(h, o.now);
    } else {
      assert all[|h|] == o;
      if m :| 0 <= m < |h| && h[m].now <= o.now - IDLE_DISCONNECT_SECONDS { assert IdleMinute(h, o.now); }
    }
    forall i | 0 <= i < |h| && h[i].now > o.now - (IDLE_DISCONNECT_SECONDS - IDLE_PIPE_PAUSE_SECONDS)
      ensures h[i].pcm != Some(Got(true))
    {
      assert k <= i ==> (all[i].now - since >= IDLE_PIPE_PAUSE_SECONDS ==> all[i].pcm != Some(Got(true)));
    }
  }

  /** A PCM check that fails is no veto: the clock runs on, and a release can follow although
      a check of the last 45 seconds did not find the source inactive. */
  lemma FailedCheckKeepsTheClock() returns (c: Controller, h: seq<Obs>, o: Obs)
    ensures Timely(h + [o]) && c.enabled && c.idleSince.None? && Observe(After(c, h), o).releasing
    ensures exists i :: 0 <= i < |h| && h[i].now > o.now - 45.0 && h[i].pcm == Some(Raised)
  {
    c := Controller(true, false, None, 0.0, PLAYBACK_POLL_INTERVAL, false);
    var a := Obs(false, 0.0, Some(Got(false)), Declined, PipePaused, Released);
    var b := a.(now := 20.0, pcm := Some(Raised));
    o := a.(now := 60.0);
    h := [a, b];
    assert h[..1] == [a] && [a][..0] == [];
    assert After(c, [a]).idleSince == Some(0.0);
    assert h[1].pcm == Some(Raised);
  }

  /** An observation of the 45 seconds before a release that found something out, or failed to. */
  predicate Recently(h: seq<Obs>, now: real, i: int) {
    0 <= i < |h| && h[i].now > now - (IDLE_DISCONNECT_SECONDS - IDLE_PIPE_PAUSE_SECONDS)
  }

  /** Checks that found the source inactive reach back 45 seconds without a gap. */
  ghost predicate Attested(h: seq<Obs>, now: real) {
    && (exists k :: 0 <= k < |h| && !Recently(h, now, k))
    && forall i :: Recently(h, now, i) ==> h[i].pcm == Some(Got(false))
  }

  /** Exactly when a release rests on 45 seconds of source PCM found inactive, if every
      observation comes with a check: when there are observations that old, and none of the
      checks since failed. */
  lemma {:induction false} InactiveExactlyUnlessFailed(c: Controller, h: seq<Obs>, o: Obs)
    requires Timely(h + [o]) && c.enabled && Observe(After(c, h), o).releasing
    requires o.pcm.Some? && forall i :: 0 <= i < |h| ==> h[i].pcm.Some?
    ensures o.pcm == Some(Got(false))
    ensures Attested(h, o.now) <==>
      && (exists k :: 0 <= k < |h| && !Recently(h, o.now, k))
      && forall i :: Recently(h, o.now, i) ==> h[i].pcm != Some(Raised)
  {
    hide Observe;
    ReleaseNeedsAnIdleMinute(c, h, o);
    ActsOnlyWhenIdle(c, h, o);
    forall i | Recently(h, o.now, i) && h[i].pcm != Some(Raised) ensures h[i].pcm == Some(Got(false)) {
      ChecksAnswer(h[i].pcm.value);
    }
    ChecksAnswer(o.pcm.value);
  }

  lemma ChecksAnswer(a: Answer<bool>)
    ensures a == Raised || a == Got(true) || a == Got(false)
  {
    if a.Got? && a.value { assert a == Got(true); }
  }

  // ------------------------------------------------------------ exactly when it acts

  /** When the idleness at the end of the history began: with the first idle report after a
      playing one, or after a check that found source PCM 15 seconds into it. */
  function IdleSince(start: Option<real>, h: seq<Obs>): Option<real> {
    if h == [] then start
    else
      var before, last := IdleSince(start, h[..|h| - 1]), h[|h| - 1];
      var since := if before.None? then last.now else before.value;
      if last.playing || (last.now - since >= IDLE_PIPE_PAUSE_SECONDS && last.pcm == Some(Got(true))) then None
      else Some(since)
  }

  lemma {:induction false} ClockIsIdleSince(c: Controller, h: seq<Obs>)
    requires c.enabled
    ensures After(c, h).idleSince == IdleSince(c.idleSince, h)
  {
    if h != [] {
      var front := h[..|h| - 1];
      StaysEnabled(c, front);
      ClockIsIdleSince(c, front);
      ClockStep(After(c, front), h[|h| - 1]);
      hide Observe;
    }
  }

  lemma ClockStep(c: Controller, o: Obs)
    requires c.enabled
    ensures var since := if c.idleSince.None? then o.now else c.idleSince.value;
      Observe(c, o).c.idleSince ==
        if o.playing || (o.now - since >= IDLE_PIPE_PAUSE_SECONDS && o.pcm == Some(Got(true)))
        then None else Some(since)
  {
    if o.pcm.Some? { ChecksAnswer(o.pcm.value); }
  }

  /** A pause that went through, or an attempt that did. */
  ghost predicate PausesAt(c: Controller, h: seq<Obs>, n: int) {
    0 <= n < |h| && Observe(After(c, h[..n]), h[n]).pausing && h[n].pause == PipePaused
  }

  ghost predicate ResumesAt(c: Controller, h: seq<Obs>, n: int) {
    0 <= n < |h| && Observe(After(c, h[..n]), h[n]).attempted && h[n].attempt.Done?
  }

  /** The pipe counts as paused since a pause that went through, until an attempt does. */
  ghost predicate PipeIsPaused(c: Controller, h: seq<Obs>) {
    || (c.pipePaused && forall m :: 0 <= m < |h| ==> !ResumesAt(c, h, m))
    || exists n :: PausesAt(c, h, n) && forall m :: n < m < |h| ==> !ResumesAt(c, h, m)
  }

  lemma PipeStep(c: Controller, o: Obs)
    ensures var s := Observe(c, o);
      && (s.c.pipePaused <==>
            (s.pausing && o.pause == PipePaused) || (c.pipePaused && !(s.attempted && o.attempt.Done?)))
      && !(s.pausing && s.attempted)
  {}

  lemma SameBefore(c: Controller, h: seq<Obs>, o: Obs)
    ensures forall n :: 0 <= n < |h| ==>
      (PausesAt(c, h + [o], n) <==> PausesAt(c, h, n)) && (ResumesAt(c, h + [o], n) <==> ResumesAt(c, h, n))
    ensures PausesAt(c, h + [o], |h|) <==> Observe(After(c, h), o).pausing && o.pause == PipePaused
    ensures ResumesAt(c, h + [o], |h|) <==> Observe(After(c, h), o).attempted && o.attempt.Done?
  {
    hide Observe, After;
    assert (h + [o])[..|h|] == h;
    forall n | 0 <= n < |h| ensures (h + [o])[..n] == h[..n] {}
  }

  lemma PipePush(c: Controller, h: seq<Obs>, o: Obs)
    requires !(PausesAt(c, h + [o], |h|) && ResumesAt(c, h + [o], |h|))
    ensures PipeIsPaused(c, h + [o]) <==>
      PausesAt(c, h + [o], |h|) || (PipeIsPaused(c, h) && !ResumesAt(c, h + [o], |h|))
  {
    SameBefore(c, h, o);
    NeverOutside(c, h, o);
    hide PausesAt, ResumesAt;
    var all := h + [o];
    if PipeIsPaused(c, h) && !ResumesAt(c, all, |h|) {
      if n :| PausesAt(c, h, n) && forall m :: n < m < |h| ==> !ResumesAt(c, h, m) {
        assert PausesAt(c, all, n);
      }
    }
    if PipeIsPaused(c, all) {
      if n :| PausesAt(c, all, n) && forall m :: n < m < |all| ==> !ResumesAt(c, all, m) {
        if n < |h| { assert PausesAt(c, h, n) && !ResumesAt(c, all, |h|); }
      } else {
        assert !ResumesAt(c, all, |h|);
      }
    }
  }

  lemma NeverOutside(c: Controller, h: seq<Obs>, o: Obs)
    ensures forall n :: PausesAt(c, h, n) ==> 0 <= n < |h|
    ensures forall n :: PausesAt(c, h + [o], n) ==> 0 <= n <= |h|
  {}

  lemma {:induction false} PausedIsPipeIsPaused(c: Controller, h: seq<Obs>)
    ensures After(c, h).pipePaused <==> PipeIsPaused(c, h)
  {
    if h != [] {
      var front, last := h[..|h| - 1], h[|h| - 1];
      assert h == front + [last];
      PausedIsPipeIsPaused(c, front);
      PipeStep(After(c, front), last);
      SameBefore(c, front, last);
      hide Observe, PipeIsPaused;
      PipePush(c, front, last);
    }
  }

  /** Exactly when an observation pauses the pipe, and exactly when it releases the outputs,
      by what was observed before: 15 and 60 seconds of idleness, no check against it now,
      and a pause that is not in force already or does not fail. */
  lemma {:induction false} ActsExactlyWhen(c: Controller, h: seq<Obs>, o: Obs)
    requires c.enabled
    ensures var s := Observe(After(c, h), o);
      var idle := o.now - (if IdleSince(c.idleSince, h).Some? then IdleSince(c.idleSince, h).value else o.now);
      var calm := !o.playing && (o.pcm.None? || o.pcm == Some(Got(false)));
      && (s.pausing <==> calm && idle >= IDLE_PIPE_PAUSE_SECONDS && !PipeIsPaused(c, h))
      && (s.releasing <==> calm && idle >= IDLE_DISCONNECT_SECONDS && (PipeIsPaused(c, h) || o.pause != PauseFailed))
  {
    StaysEnabled(c, h);
    ClockIsIdleSince(c, h);
    PausedIsPipeIsPaused(c, h);
    ActsStep(After(c, h), o);
    hide Observe, After, IdleSince, PipeIsPaused;
  }

  lemma ActsStep(c: Controller, o: Obs)
    requires c.enabled
    ensures var s := Observe(c, o);
      var idle := o.now - (if c.idleSince.Some? then c.idleSince.value else o.now);
      var calm := !o.playing && (o.pcm.None? || o.pcm == Some(Got(false)));
      && (s.pausing <==> calm && idle >= IDLE_PIPE_PAUSE_SECONDS && !c.pipePaused)
      && (s.releasing <==> calm && idle >= IDLE_DISCONNECT_SECONDS && (c.pipePaused || o.pause != PauseFailed))
  {
    if o.pcm.Some? { ChecksAnswer(o.pcm.value); }
  }

  /** So five seconds of idleness pause nothing, nor do any fewer than 15; and 15 seconds with
      the source checked do, unless the pipe is paused already. */
  lemma FiveSecondsAreNotEnough(c: Controller, h: seq<Obs>, o: Obs)
    requires c.enabled && !o.playing && IdleSince(c.idleSince, h).Some? && o.pcm == Some(Got(false))
    ensures var idle := o.now - IdleSince(c.idleSince, h).value;
      && (idle < IDLE_PIPE_PAUSE_SECONDS ==> !Observe(After(c, h), o).pausing && !Observe(After(c, h), o).releasing)
      && (idle >= IDLE_PIPE_PAUSE_SECONDS && !PipeIsPaused(c, h) ==> Observe(After(c, h), o).pausing)
  {
    hide Observe, After, IdleSince, PipeIsPaused;
    ActsExactlyWhen(c, h, o);
  }

  // ------------------------------------------------------------------ retry backoff

  /** min(60, 5 * 2^n): the delay after n failures in a row. */
  function Delay(n: nat): real {
    if n == 0 then PLAYBACK_POLL_INTERVAL else Min(LONGEST_RETRY, Delay(n - 1) * 2.0)
  }

  function TotalDelay(n: nat): real {
    if n == 0 then 0.0 else TotalDelay(n - 1) + Delay(n - 1)
  }

  /** An observation that ends a stretch of failures: an idle report, or a finished attempt. */
  predicate Clears(s: Step, o: Obs) {
    !o.playing || (s.attempted && o.attempt.Done?)
  }

  /** The times of the failed attempts since the stretch began. */
  function Failures(c: Controller, h: seq<Obs>): seq<real> {
    if h == [] then []
    else
      var front, last := h[..|h| - 1], h[|h| - 1];
      var s := Observe(After(c, front), last);
      if Clears(s, last) then []
      else if s.attempted && last.attempt.Failed? then Failures(c, front) + [last.now]
      else Failures(c, front)
  }

  /** The retry fields hold exactly the backoff of the stretch. */
  predicate Backoff(c: Controller, failures: seq<real>) {
    && c.retryDelay == Delay(|failures|)
    && c.retryAt == if failures == [] then 0.0 else failures[|failures| - 1] + Delay(|failures| - 1)
  }

  /** Each failure waits out the delay that the one before it set. */
  predicate WaitsOut(failures: seq<real>) {
    forall i :: 0 < i < |failures| ==> failures[i] >= failures[i - 1] + Delay(i - 1)
  }

  lemma RetryShape(c: Controller, o: Obs, failures: seq<real>)
    requires Backoff(c, failures)
    ensures var s := Observe(c, o);
      Backoff(s.c, if Clears(s, o) then []
                   else if s.attempted && o.attempt.Failed? then failures + [o.now] else failures)
    ensures Observe(c, o).attempted ==> o.now >= c.retryAt
  {}

  /** From a fresh controller, the retry fields always say how far the failing stretch is. */
  lemma {:induction false} BackoffHolds(c: Controller, h: seq<Obs>)
    requires Backoff(c, [])
    ensures Backoff(After(c, h), Failures(c, h)) && WaitsOut(Failures(c, h))
  {
    if h != [] {
      hide Observe;
      var front, last := h[..|h| - 1], h[|h| - 1];
      BackoffHolds(c, front);
      RetryShape(After(c, front), last, Failures(c, front));
    }
  }

  lemma {:induction false} DelayBounds(n: nat)
    ensures PLAYBACK_POLL_INTERVAL <= Delay(n) <= LONGEST_RETRY
    ensures n >= 4 ==> Delay(n) == LONGEST_RETRY
  {
    if n > 0 {
      DelayBounds(n - 1);
      if n == 4 { assert Delay(3) == 40.0 by { assert Delay(1) == 10.0; assert Delay(2) == 20.0; } }
    }
  }

  /** The whole sum of delays: 0, 5, 15, 35, 75 and then 60 seconds more for each attempt. */
  lemma {:induction false} TotalDelayClosed(n: nat)
    ensures TotalDelay(n) >= 60.0 * n as real - 165.0
    ensures n >= 4 ==> TotalDelay(n) == 60.0 * n as real - 165.0
  {
    if n <= 4 {
      assert TotalDelay(1) == 5.0;
      assert TotalDelay(2) == 15.0;
      assert TotalDelay(3) == 35.0 by { assert Delay(2) == 20.0; }
      assert TotalDelay(4) == 75.0 by { assert Delay(2) == 20.0; assert Delay(3) == 40.0; }
    } else {
      TotalDelayClosed(n - 1);
      DelayBounds(n - 1);
    }
  }

  lemma {:induction false} DelayGrows(i: nat, j: nat)
    requires i <= j
    ensures Delay(i) <= Delay(j)
  {
    if i < j {
      DelayGrows(i, j - 1);
      DelayBounds(j - 1);
    }
  }

  /** The n-th retry of a failing stretch, from whatever failure one counts, comes at least the
      first n delays later. */
  lemma {:induction false} RetriesAreSpread(failures: seq<real>, i: nat, j: nat)
    requires WaitsOut(failures) && i <= j < |failures|
    ensures failures[j] - failures[i] >= TotalDelay(j - i)
  {
    if i < j {
      RetriesAreSpread(failures, i, j - 1);
      DelayGrows(j - 1 - i, j - 1);
    }
  }

  /** In every history: the delay stays between 5 and 60 seconds, and of a failing stretch any
      n retries take at least the first n delays, which is at least 60n - 165 seconds. */
  lemma FailuresBackOff(c: Controller, h: seq<Obs>, i: nat, j: nat)
    requires Backoff(c, []) && i <= j < |Failures(c, h)|
    ensures PLAYBACK_POLL_INTERVAL <= After(c, h).retryDelay <= LONGEST_RETRY
    ensures var f := Failures(c, h); f[j] - f[i] >= TotalDelay(j - i) >= 60.0 * (j - i) as real - 165.0
  {
    BackoffHolds(c, h);
    DelayBounds(|Failures(c, h)|);
    RetriesAreSpread(Failures(c, h), i, j);
    TotalDelayClosed(j - i);
  }

  /** No attempt of any kind is made before the delay of the last failure is over. */
  lemma NoEarlyRetry(c: Controller, h: seq<Obs>, o: Obs)
    requires Backoff(c, []) && Failures(c, h) != [] && Observe(After(c, h), o).attempted
    ensures var f := Failures(c, h); o.now >= f[|f| - 1] + Delay(|f| - 1)
  {
    BackoffHolds(c, h);
    RetryShape(After(c, h), o, Failures(c, h));
  }

  // ---------------------------------------------------------------- the resume is owed

  /** The controller paused the pipe or released the outputs, and has not resumed since. */
  predicate Owes(c: Controller) { c.pipePaused || c.released }

  /** A finished attempt has run the PCM resume whenever outputs were reconnected or one was owed. */
  predicate Faithful(c: Controller, o: Obs) {
    o.playing && o.attempt.Done? ==> (o.attempt.resumed.Some? <==> o.attempt.reconnected || Owes(c))
  }

  ghost predicate AllFaithful(c: Controller, h: seq<Obs>) {
    forall n :: 0 <= n < |h| ==> Faithful(After(c, h[..n]), h[n])
  }

  lemma ForgivenOnlyByResume(c: Controller, o: Obs)
    requires Faithful(c, o) && Owes(c) && !Owes(Observe(c, o).c)
    ensures o.playing && Observe(c, o).attempted && o.attempt.Done? && o.attempt.resumed.Some?
  {}

  lemma FaithfulBefore(c: Controller, h: seq<Obs>)
    requires h != [] && AllFaithful(c, h)
    ensures AllFaithful(c, h[..|h| - 1])
  {
    hide After, Faithful;
    var front := h[..|h| - 1];
    forall n | 0 <= n < |front| ensures Faithful(After(c, front[..n]), front[n]) { assert front[..n] == h[..n]; }
  }

  /** In every history, between a moment that owes a resume and a later one that does not,
      some attempt ran resume_pcm_playback to its normal end. */
  lemma {:induction false} ResumeIsNeverForgotten(c: Controller, h: seq<Obs>, i: nat)
    requires AllFaithful(c, h) && i <= |h| && Owes(After(c, h[..i])) && !Owes(After(c, h))
    ensures exists n :: i <= n < |h| && h[n].playing && h[n].attempt.Done? && h[n].attempt.resumed.Some?
                        && Observe(After(c, h[..n]), h[n]).attempted
  {
    hide Observe, Faithful;
    assert h[..|h|] == h;
    if i < |h| {
      var front := h[..|h| - 1];
      assert front[..i] == h[..i];
      if Owes(After(c, front)) {
        ForgivenOnlyByResume(After(c, front), h[|h| - 1]);
        assert h[..|h| - 1] == front;
      } else {
        FaithfulBefore(c, h);
        ResumeIsNeverForgotten(c, front, i);
        var n :| i <= n < |front| && front[n].playing && front[n].attempt.Done? && front[n].attempt.resumed.Some?
                 && Observe(After(c, front[..n]), front[n]).attempted;
        assert front[..n] == h[..n] && front[n] == h[n];
      }
    }
  }
}
