/** What the supervisor does to the outputs in one tick: Runtime.reconcile in every mode, and
    the two repairs that run under the output lock. */
module RuntimeOutputs {
  import opened Prelude
  import opened Findings
  import opened OwnTone
  import opened Bridge
  import opened Reconciliation
  import opened Intent
  import opened IdleOutputs
  import P = PcmPlayback
  import I = IdleTiming

  /** What a held mode selects: the local output alone, or nothing. None: it cannot be told. */
  function Desired(items: seq<Output>, c: Config, mode: Mode): Option<seq<string>> {
    match mode
    case Local => if LocalId(items, c).Some? then Some([LocalId(items, c).value]) else None
    case Stopped => Some([])
    case _ => None
  }

  predicate Held(items: seq<Output>, c: Config, mode: Mode) {
    Desired(items, c, mode).Some? && SelectedIds(items) == Got(set id | id in Desired(items, c, mode).value)
  }

  lemma SelectingHolds(items: seq<Output>, c: Config, mode: Mode, reset: Reset)
    requires Desired(items, c, mode).Some?
    ensures Held(ApplySelect(items, Desired(items, c, mode).value, reset), c, mode)
  {
    var ids := Desired(items, c, mode).value;
    var next := ApplySelect(items, ids, reset);
    SelectionTakes(items, ids, reset);
    if mode == Local { SameLookup(items, next, c.localName, LOCAL_TYPE); }
  }

  lemma HeldMeans(items: seq<Output>, c: Config, mode: Mode)
    requires Desired(items, c, mode).Some? && SelectedIds(items).Got?
    ensures Held(items, c, mode) <==> SelectedIds(items).value == (set id | id in Desired(items, c, mode).value)
  {}

  method SelectDesired(world: World, mode: Mode, ids: seq<string>) returns (r: Answer<()>)
    requires world.Valid() && world.mode == mode && Desired(world.tone, world.config, mode) == Some(ids)
    modifies world
    ensures Obeys(world) && world.mode == mode
    ensures world.writes == old(world.writes) + [Select(Supervising, mode, ids, old(world.tone))]
    ensures world.Smooth(old(world.calls)) ==> r.Got? && Held(world.tone, world.config, mode)
  {
    hide UnderCurrent, ModeAfter, AllPermitted, LocalId, SelectedIds, Held;
    ghost var reset := world.replies(world.calls).reset;
    r := SelectPermitted(world, ids);
    SelectingHolds(old(world.tone), world.config, mode, reset);
  }

  /** Runtime.reconcile under `local` or `stopped`: the mode read before the lock counts only
      if it is still the mode inside it; then the held selection is restored if it was lost. */
  method HoldSelection(world: World, player: P.Player, mode: Mode, playing: bool) returns (r: Answer<bool>)
    requires world.Valid() && (mode == Local || mode == Stopped)
    modifies world, world.lock, player
    ensures Obeys(world) && world.mode == old(world.mode)
    ensures world.writes != old(world.writes) ==>
      && world.mode == mode && Desired(old(world.tone), world.config, mode).Some?
      && !Held(old(world.tone), world.config, mode)
      && var ids := Desired(old(world.tone), world.config, mode).value;
         world.writes == old(world.writes) + [Select(Supervising, mode, ids, old(world.tone))]
    ensures player.calls != old(player.calls) ==> playing && mode == Local && world.mode == Local
    ensures (&& world.Smooth(old(world.calls)) && world.mode == mode
             && SelectedIds(old(world.tone)).Got? && Desired(old(world.tone), world.config, mode).Some?) ==>
      && Held(world.tone, world.config, mode)
      && (r.Raised? <==>
          mode == Local && playing && !P.Resumes(player.replies, old(player.used), player.patience))
  {
    hide UnderCurrent, ModeAfter, AllPermitted, LocalId, SelectedIds, Held, Desired, P.Resumes, P.ResumeRules,
      P.ResumeMeans;
    var locked := Lock(world);
    if locked.Raised? { return Raised; }
    var current := world.ReadMode();
    if current.Raised? { return Raised; }
    if current.value != mode { return Got(false); }
    var read := world.Outputs();
    if read.Raised? { return Raised; }
    var desired := Desired(read.value, world.config, mode);
    if desired.None? { return Raised; }
    var selected := SelectedIds(read.value);
    if selected.Raised? { return Raised; }
    var changed := selected.value != (set id | id in desired.value);
    HeldMeans(read.value, world.config, mode);
    if changed {
      var sent := SelectDesired(world, mode, desired.value);
      if sent.Raised? { return Raised; }
    }
    if mode == Local && playing {
      var resumed := player.Resume();
      if resumed.Raised? { return Raised; }
      changed := resumed.value || changed;
    }
    return Got(changed);
  }

  /** What the next call, whether the PC sink is present, is going to answer. */
  predicate SinkPresent(world: World)
    reads world
  {
    !world.replies(world.calls).fails && world.replies(world.calls).yes
  }

  /** Whether the checks from this call on let the pair be connected: the outputs can be told,
      and they are the pair already, or the WiiM source is not guarded or free. */
  predicate SourceFree(world: World, from: nat)
    reads world`tone
  {
    && !world.replies(from).fails && ResolvePair(world.tone, world.config).Got? && SelectedIds(world.tone).Got?
    && (PairConnected(world.tone, world.config) || !world.config.guarded || !world.replies(from + 1).fails)
  }

  /** flow.configured_outputs_selected and, when the WiiM source is guarded, source_guard. */
  method GuardSource(world: World) returns (r: Answer<()>)
    requires world.Valid()
    modifies world`calls
    ensures world.Valid() && Obeys(world)
    ensures r.Got? <==> old(SourceFree(world, world.calls))
    ensures r.Got? ==> ResolvePair(world.tone, world.config).Got? && SelectedIds(world.tone).Got?
    ensures (&& world.Smooth(old(world.calls)) && ResolvePair(world.tone, world.config).Got?
             && SelectedIds(world.tone).Got?) ==>
      r.Got?
  {
    hide ResolvePair, SelectedIds;
    var read := world.Outputs();
    if read.Raised? { return Raised; }
    var pair := ResolvePair(read.value, world.config);
    var selected := SelectedIds(read.value);
    if pair.Raised? || selected.Raised? { return Raised; }
    if selected.value != {pair.value.0.id.value, pair.value.1.id.value} && world.config.guarded {
      var free := world.Ask();       // source_guard
      if free.Raised? { return Raised; }
    }
    return Got(());
  }

  /** The last locked section is the fallback, begun after that of the idle controller if it
      was asked, and delivers. */
  twostate predicate FellBack(world: World, asked: bool)
    reads world, world.lock
  {
    var begun, sections := |old(world.lock.sections)|, world.lock.sections;
    && |sections| == begun + (if asked then 2 else 1) && old(world.lock.sections) <= sections
    && FallbackDelivers(world, sections[|sections| - 1])
    && sections[begun].tone == old(world.tone)
  }

  lemma RaisesOnlyIfAttempted(c: I.Controller, o: I.Obs)
    requires o.playing && I.Observe(c, o).result.Raised?
    ensures I.Observe(c, o).attempted
  {}

  /** Runtime.reconcile in `auto`. An error while playing leads to the PC-only fallback, whose
      own errors are swallowed, before it is raised. `seen` is what the idle controller
      observed, if it was asked. */
  method ReconcileAutomatic(world: World, player: P.Player, outputs: IdleOutputController, playing: bool, now: real,
                            pcm: Answer<bool>)
    returns (r: Answer<bool>, seen: Option<I.Obs>)
    requires world.Valid()
    modifies world, world.lock, player, outputs
    ensures Obeys(world) && world.mode == old(world.mode)
    ensures playing ==> PcNeverDrops(old(world.tone), world.config, old(world.visited), world.visited)
    ensures world.writes != old(world.writes) ==> world.mode == Auto && OnlyPairSelected(old(world.tone), world.config)
    ensures match seen
            case None => outputs.Abs() == old(outputs.Abs())
            case Some(o) =>
              && o.playing == playing && o.now == now && o.pcm == Some(pcm) && I.Faithful(old(outputs.Abs()), o)
              && outputs.Abs() == I.Observe(old(outputs.Abs()), o).c && r == I.Observe(old(outputs.Abs()), o).result
    ensures seen.Some? <==> !playing || old(SinkPresent(world) && SourceFree(world, world.calls + 1))
    ensures playing && old(SinkPresent(world)) && r.Raised? ==> FellBack(world, seen.Some?)
    ensures playing && r.Got? ==> |world.lock.sections| <= |old(world.lock.sections)| + 1
  {
    hide PcNeverDrops, ResolvePair, SelectedIds, UnderCurrent, ModeAfter, AllPermitted, OnlyPairSelected,
      SourceFree, I.Observe, I.Faithful;
    NothingDrops(world.tone, world.config, world.visited);
    seen := None;
    if playing {
      var sink := world.Ask();       // pc_sink_available
      if sink.Raised? { return Raised, None; }
      if !sink.value { return Got(false), None; }
      var guard := GuardSource(world);
      if guard.Raised? {
        var fallback := EnsurePcPlayback(world, player);
        return Raised, None;
      }
    }
    var result, step := outputs.Observe(world, player, playing, now, Some(pcm));
    r, seen := result, Some(step);
    if result.Raised? && playing { RaisesOnlyIfAttempted(old(outputs.Abs()), step); }
    if result.Raised? && playing {
      ghost var tone, visited := world.tone, world.visited;
      var fallback := EnsurePcPlayback(world, player);
      NeverDropsThen(old(world.tone), tone, world.config, old(world.visited), visited, world.visited);
    }
  }

  /** Runtime.reconcile. */
  method Reconcile(world: World, player: P.Player, outputs: IdleOutputController, playing: bool, now: real,
                   mode: Mode, pcm: Answer<bool>)
    returns (r: Answer<bool>, seen: Option<I.Obs>)
    requires world.Valid()
    modifies world, world.lock, player, outputs
    ensures Obeys(world) && world.mode == old(world.mode)
    ensures playing && mode == Auto ==> PcNeverDrops(old(world.tone), world.config, old(world.visited), world.visited)
    ensures mode == Auto && world.writes != old(world.writes) ==>
      world.mode == Auto && OnlyPairSelected(old(world.tone), world.config)
    ensures mode == Manual ==>
      && r == Got(false) && world.writes == old(world.writes)
      && player.calls == old(player.calls) && outputs.Abs() == old(outputs.Abs())
    ensures match seen
            case None => outputs.Abs() == old(outputs.Abs())
            case Some(o) =>
              && mode == Auto && o.playing == playing && o.now == now && o.pcm == Some(pcm)
              && I.Faithful(old(outputs.Abs()), o) && outputs.Abs() == I.Observe(old(outputs.Abs()), o).c
    ensures seen.Some? <==>
      mode == Auto && (!playing || old(SinkPresent(world) && SourceFree(world, world.calls + 1)))
    ensures mode == Auto && playing && old(SinkPresent(world)) && r.Raised? ==> FellBack(world, seen.Some?)
    ensures (&& (mode == Local || mode == Stopped) && world.mode == mode && world.Smooth(old(world.calls))
             && SelectedIds(old(world.tone)).Got? && Desired(old(world.tone), world.config, mode).Some?) ==>
      Held(world.tone, world.config, mode)
  {
    hide PcNeverDrops, UnderCurrent, ModeAfter, AllPermitted, Held, Desired, SelectedIds, OnlyPairSelected,
      SourceFree, I.Observe, I.Faithful;
    seen := None;
    match mode
    case Auto => r, seen := ReconcileAutomatic(world, player, outputs, playing, now, pcm);
    case Manual => r := Got(false);
    case _ => r := HoldSelection(world, player, mode, playing);
  }

  /** What the repair of a paused player is going to find: the lock, the intent and playback. */
  predicate PcmRepairable(world: World)
    reads world
  {
    && !world.replies(world.calls).fails && !world.replies(world.calls + 1).fails
    && (world.mode == Auto || world.mode == Local)
    && !world.replies(world.calls + 2).fails && world.replies(world.calls + 2).yes
  }

  /** The repair of a paused PCM player: the intent and the playback are read again first. */
  method RepairPcm(world: World, player: P.Player) returns (r: Answer<bool>)
    requires world.Valid()
    modifies world`calls, world.lock, player
    ensures Obeys(world)
    ensures player.calls != old(player.calls) ==> world.mode == Auto || world.mode == Local
    ensures old(player.calls) <= player.calls && P.ResumeRules(player.calls[|old(player.calls)|..])
    ensures r == Got(true) ==> P.ResumeMeans(player.calls[|old(player.calls)|..], Got(true))
    ensures if old(PcmRepairable(world))
      then P.ResumeDecided(player.replies, old(player.used), player.patience, player.calls[|old(player.calls)|..], r)
        else player.calls == old(player.calls) && r != Got(true)
  {
    hide P.ResumeRules, P.ResumeMeans, P.ResumeDecided;
    P.NothingBreaksNoRule();
    assert player.calls[|player.calls|..] == [];
    var locked := Lock(world);
    if locked.Raised? { return Raised; }
    var mode := world.ReadMode();
    if mode.Raised? { return Raised; }
    if mode.value != Auto && mode.value != Local { return Got(false); }
    var playing := world.Ask();
    if playing.Raised? { return Raised; }
    if !playing.value { return Got(false); }
    r := player.Resume();
  }

  /** The locked section of the repair of a stale WiiM session. */
  method RejoinSession(world: World, player: P.Player) returns (r: Answer<bool>)
    requires world.Valid()
    modifies world, world.lock, player
    ensures player.calls != old(player.calls) ==> world.mode == Auto
    ensures Obeys(world) && world.mode == old(world.mode)
    ensures PcNeverDrops(old(world.tone), world.config, old(world.visited), world.visited)
    ensures world.writes != old(world.writes) ==> world.mode == Auto
    ensures r == Got(true) ==> world.mode == Auto && ReadBack(old(world.tone), world.tone, world.config, true, true)
    ensures Entered(world)
    ensures (&& world.Smooth(old(world.calls)) && world.mode == Auto && world.replies(old(world.calls) + 2).yes
             && OnlyPair(old(world.tone), world.config) && PcTold(old(world.tone), world.config)) ==>
      (r == Got(true) <==>
       && Joins(old(world.tone), world.config,
                world.replies(old(world.calls) + if world.config.guarded then 11 else 10).reset)
       && P.Resumes(player.replies, old(player.used), player.patience))
  {
    hide PcNeverDrops, PcStays, PairWrites, ReadBack, SucceedsAsPlanned, P.ResumeRules, P.ResumeMeans, P.Resumes,
      PcTold, Joins, ResolvePair, SelectedIds, UnderCurrent, ModeAfter, AllPermitted;
    NothingDrops(world.tone, world.config, world.visited);
    var locked := Lock(world);
    if locked.Raised? { return Raised; }
    var mode := world.ReadMode();
    if mode.Raised? { return Raised; }
    if mode.value != Auto { return Got(false); }
    var playing := world.Ask();
    if playing.Raised? { return Raised; }
    if !playing.value { return Got(false); }
    if world.config.guarded {
      var free := world.Ask();       // source_guard
      if free.Raised? { return Raised; }
    }
    var once := ReconcileOnce(world, Supervising, true, true);
    StaysThenOn(old(world.tone), world.config, old(world.visited), world.visited, old(world.writes), world.writes);
    if old(AllPermitted(world.writes, world.config)) {
      PairWritesPermitted(old(world.writes), world.writes, world.initial, world.config);
    }
    PairWritesGrow(old(world.writes), world.writes, Supervising, world.config);
    if (&& world.Smooth(old(world.calls))
        && OnlyPair(old(world.tone), world.config) && PcTold(old(world.tone), world.config)) {
      var reset := world.replies(old(world.calls) + if world.config.guarded then 11 else 10).reset;
      JoinsAsPlanned(old(world.tone), world.tone, world.config, reset, once);
    }
    if once.Raised? { return Raised; }
    var resumed := player.Resume();
    return if resumed.Raised? then Raised else Got(true);
  }

  /** The repair of a stale WiiM session; an error leads to the PC-only fallback. */
  method RepairSession(world: World, player: P.Player) returns (r: Answer<bool>)
    requires world.Valid()
    modifies world, world.lock, player
    ensures Obeys(world) && world.mode == old(world.mode)
    ensures PcNeverDrops(old(world.tone), world.config, old(world.visited), world.visited)
    ensures world.mode != Auto ==> world.writes == old(world.writes)
    ensures r == Got(true) ==> ReadBack(old(world.tone), world.tone, world.config, true, true)
    ensures if r.Raised? then FellBack(world, true) else Entered(world)
  {
    hide PcNeverDrops, ReadBack, UnderCurrent, ModeAfter, AllPermitted;
    r := RejoinSession(world, player);
    if r.Raised? {
      ghost var tone, visited := world.tone, world.visited;
      var fallback := EnsurePcPlayback(world, player);
      NeverDropsThen(old(world.tone), tone, world.config, old(world.visited), visited, world.visited);
    }
  }
}
