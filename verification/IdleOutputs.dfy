/** volume_handoff.IdleOutputController acting on the shared world: the timing proved in
    IdleTiming and the output safety proved in Intent, of the same steps. */
module IdleOutputs {
  import opened Prelude
  import opened Findings
  import opened OwnTone
  import opened Bridge
  import opened Reconciliation
  import opened Intent
  import P = PcmPlayback
  import I = IdleTiming

  class IdleOutputController {
    const enabled: bool
    var released: bool
    var idleSince: Option<real>
    var retryAt: real
    var retryDelay: real
    var pipePaused: bool

    function Abs(): I.Controller
      reads this
    {
      I.Controller(enabled, released, idleSince, retryAt, retryDelay, pipePaused)
    }

    constructor (enabled: bool, idleSince: Option<real>)
      ensures Abs() == I.Controller(enabled, false, idleSince, 0.0, I.PLAYBACK_POLL_INTERVAL, false)
    {
      this.enabled := enabled;
      released, pipePaused := false, false;
      this.idleSince := idleSince;
      retryAt, retryDelay := 0.0, I.PLAYBACK_POLL_INTERVAL;
    }

    /** observe: one step of the controller whose timing is proved over whole histories; while
        playing it never drops the PC output. */
    method Observe(world: World, player: P.Player, playing: bool, now: real, pcm: Option<Answer<bool>>)
      returns (r: Answer<bool>, seen: I.Obs)
      requires world.Valid()
      modifies this, world, world.lock, player
      ensures seen.playing == playing && seen.now == now && seen.pcm == pcm && I.Faithful(old(Abs()), seen)
      ensures Abs() == I.Observe(old(Abs()), seen).c && r == I.Observe(old(Abs()), seen).result
      ensures Obeys(world) && world.mode == old(world.mode)
      ensures world.writes != old(world.writes) ==>
        world.mode == Auto && OnlyPairSelected(old(world.tone), world.config)
      ensures playing ==> PcNeverDrops(old(world.tone), world.config, old(world.visited), world.visited)
      ensures playing ==>
        if I.Observe(old(Abs()), seen).attempted then Entered(world)
        else world.lock.sections == old(world.lock.sections)
      ensures old(player.calls) <= player.calls
      ensures playing && I.Observe(old(Abs()), seen).attempted && seen.attempt.Done? && seen.attempt.resumed.Some? ==>
        P.ResumeMeans(player.calls[|old(player.calls)|..], Got(seen.attempt.resumed.value))
    {
      hide PcNeverDrops, P.ResumeMeans, OnlyPairSelected, UnderCurrent, ModeAfter, AllPermitted, I.Observe, I.Faithful;
      if playing {
        r, seen := ObservePlaying(world, player, now, pcm);
      } else {
        r, seen := ObserveIdle(world, player, now, pcm);
      }
    }

    method ObserveIdle(world: World, player: P.Player, now: real, pcm: Option<Answer<bool>>)
      returns (r: Answer<bool>, seen: I.Obs)
      requires world.Valid()
      modifies this, world, world.lock, player
      ensures !seen.playing && seen.now == now && seen.pcm == pcm && I.Faithful(old(Abs()), seen)
      ensures Abs() == I.Observe(old(Abs()), seen).c && r == I.Observe(old(Abs()), seen).result
      ensures Obeys(world) && world.mode == old(world.mode)
      ensures world.writes != old(world.writes) ==>
        world.mode == Auto && OnlyPairSelected(old(world.tone), world.config)
      ensures old(player.calls) <= player.calls
    {
      hide OnlyPairSelected, UnderCurrent, ModeAfter, AllPermitted, I.Releasing;
      seen := I.Obs(false, now, pcm, I.Declined, I.NotAutomatic, I.Kept);
      retryAt, retryDelay := 0.0, I.PLAYBACK_POLL_INTERVAL;
      if !enabled { return Got(false), seen; }
      if idleSince.None? { idleSince := Some(now); }
      var since := idleSince.value;
      if now - since >= I.IDLE_PIPE_PAUSE_SECONDS && pcm.Some? {
        if pcm.value.Raised? { return Raised, seen; }
        if pcm.value.value {
          idleSince := None;
          return Got(false), seen;
        }
      }
      ghost var pausing := !pipePaused && now - since >= I.IDLE_PIPE_PAUSE_SECONDS;
      if !pipePaused && now - since >= I.IDLE_PIPE_PAUSE_SECONDS {
        var paused := PauseWhenIdle(world, player);
        seen := seen.(pause := paused);
        if paused == I.PauseFailed { return Raised, seen; }
        if paused == I.PipePaused { pipePaused := true; }
      }
      r, seen := ReleaseWhenIdle(world, seen, pausing);
    }

    method ReleaseWhenIdle(world: World, o: I.Obs, ghost pausing: bool) returns (r: Answer<bool>, seen: I.Obs)
      requires world.Valid() && idleSince.Some?
      modifies this, world, world.lock
      ensures seen == o.(release := seen.release)
      ensures var s := I.Releasing(old(Abs()), seen, pausing); Abs() == s.c && r == s.result
      ensures Obeys(world) && world.mode == old(world.mode)
      ensures world.writes != old(world.writes) ==>
        world.mode == Auto && OnlyPairSelected(old(world.tone), world.config)
    {
      hide OnlyPairSelected, UnderCurrent, ModeAfter, AllPermitted;
      seen := o;
      if o.now - idleSince.value >= I.IDLE_DISCONNECT_SECONDS {
        var step := ReleaseOutputs(world);
        seen := o.(release := step);
        if step == I.ReleaseFailed { return Raised, seen; }
        if step != I.Kept { released := true; }
      }
      return Got(false), seen;
    }

    method ObservePlaying(world: World, player: P.Player, now: real, pcm: Option<Answer<bool>>)
      returns (r: Answer<bool>, seen: I.Obs)
      requires world.Valid()
      modifies this, world, world.lock, player
      ensures seen.playing && seen.now == now && seen.pcm == pcm && I.Faithful(old(Abs()), seen)
      ensures Abs() == I.Observe(old(Abs()), seen).c && r == I.Observe(old(Abs()), seen).result
      ensures Obeys(world) && world.mode == old(world.mode)
      ensures world.writes != old(world.writes) ==>
        world.mode == Auto && OnlyPairSelected(old(world.tone), world.config)
      ensures PcNeverDrops(old(world.tone), world.config, old(world.visited), world.visited)
      ensures if I.Observe(old(Abs()), seen).attempted then Entered(world)
        else world.lock.sections == old(world.lock.sections)
      ensures old(player.calls) <= player.calls
      ensures I.Observe(old(Abs()), seen).attempted && seen.attempt.Done? && seen.attempt.resumed.Some? ==>
        P.ResumeMeans(player.calls[|old(player.calls)|..], Got(seen.attempt.resumed.value))
    {
      hide PcNeverDrops, P.ResumeMeans, P.ResumeRules, P.Resumes, OnlyPairSelected, OnlyPair, PcTold, Joins,
        PairConnected, ReadBack, UnderCurrent, ModeAfter, AllPermitted;
      NothingDrops(world.tone, world.config, world.visited);
      var resumeNeeded := pipePaused || released;
      idleSince := None;
      seen := I.Obs(true, now, pcm, I.Declined, I.NotAutomatic, I.Kept);
      if now < retryAt { return Got(false), seen; }
      var attempt := ReconnectPair(world, player, resumeNeeded);
      seen := seen.(attempt := attempt);
      match attempt
      case Declined => return Got(false), seen;
      case Failed =>
        retryAt := now + retryDelay;
        retryDelay := I.Min(I.LONGEST_RETRY, retryDelay * 2.0);
        return Raised, seen;
      case Done(reconnected, resumed) =>
        pipePaused, released := false, false;
        retryAt, retryDelay := 0.0, I.PLAYBACK_POLL_INTERVAL;
        return Got(reconnected || resumed == Some(true)), seen;
    }
  }
}
