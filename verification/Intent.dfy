/** Every locked section that changes OwnTone's outputs, of the command line and of the
    supervisor, and the runs they form: the supervisor never selects against the user's mode. */
module Intent {
  import opened Prelude
  import opened Findings
  import opened OwnTone
  import opened Bridge
  import opened Reconciliation
  import P = PcmPlayback
  import I = IdleTiming

  /** What every section keeps: a valid world, the outputs' identity, and only permitted
      supervisor selections. */
  twostate predicate Obeys(world: World)
    reads world
  {
    && world.Valid() && SameOutputs(world.tone, old(world.tone))
    && old(world.writes) <= world.writes && (world.writes == old(world.writes) ==> world.tone == old(world.tone))
    && (old(AllPermitted(world.writes, world.config)) ==> AllPermitted(world.writes, world.config))
  }

  /** One locked section was begun. */
  twostate predicate Entered(world: World)
    reads world, world.lock
  {
    world.lock.sections == old(world.lock.sections) + [Locked(old(world.calls), old(world.tone))]
  }

  /** Pair writes are permitted in auto. */
  lemma PairWritesPermitted(writes0: seq<Write>, writes: seq<Write>, initial: Mode, c: Config)
    requires AllPermitted(writes0, c) && PairWrites(writes0, writes, Supervising, c)
    requires UnderCurrent(initial, writes) && ModeAfter(initial, writes0) == Auto
    ensures AllPermitted(writes, c) && ModeAfter(initial, writes) == Auto
  {
    forall n | |writes0| <= n <= |writes| ensures ModeAfter(initial, writes[..n]) == Auto {
      NoPolicy(initial, writes0, writes, n);
    }
    assert writes[..|writes|] == writes;
  }

  lemma {:induction false} NoPolicy(initial: Mode, writes0: seq<Write>, writes: seq<Write>, n: nat)
    requires writes0 <= writes && |writes0| <= n <= |writes|
    requires forall k :: |writes0| <= k < |writes| ==> !writes[k].Policy?
    ensures ModeAfter(initial, writes[..n]) == ModeAfter(initial, writes0)
  {
    if n > |writes0| {
      NoPolicy(initial, writes0, writes, n - 1);
      assert writes[..n][..n - 1] == writes[..n - 1];
    } else {
      assert writes[..n] == writes0;
    }
  }

  /** The output at position l is selected in every state since `before`. */
  ghost predicate PcOn(before: seq<seq<Output>>, after: seq<seq<Output>>, l: int) {
    before <= after && forall k :: |before| <= k < |after| ==> 0 <= l < |after[k]| && after[k][l].selected
  }

  /** The PC output, when connected at the start, is connected in every state in between. */
  ghost predicate PcNeverDrops(tone0: seq<Output>, c: Config, before: seq<seq<Output>>, after: seq<seq<Output>>) {
    forall l :: UniqueAt(tone0, c.localName, LOCAL_TYPE, l) && tone0[l].selected ==> PcOn(before, after, l)
  }

  lemma StaysThenOn(tone0: seq<Output>, c: Config, visited0: seq<seq<Output>>, visited: seq<seq<Output>>,
                    writes0: seq<Write>, writes: seq<Write>)
    requires PcStays(tone0, c, visited0, visited, writes0, writes)
    ensures PcNeverDrops(tone0, c, visited0, visited)
  {
    forall l | UniqueAt(tone0, c.localName, LOCAL_TYPE, l) && tone0[l].selected ensures PcOn(visited0, visited, l) {
      assert KeptSince(visited0, visited, tone0, l);
    }
  }

  lemma NeverDropsThen(tone0: seq<Output>, tone1: seq<Output>, c: Config,
                       v0: seq<seq<Output>>, v1: seq<seq<Output>>, v2: seq<seq<Output>>)
    requires PcNeverDrops(tone0, c, v0, v1) && PcNeverDrops(tone1, c, v1, v2) && SameOutputs(tone1, tone0)
    requires v0 != [] && v0[|v0| - 1] == tone0 && v1 != [] && v1[|v1| - 1] == tone1
    ensures PcNeverDrops(tone0, c, v0, v2)
  {
    forall l | UniqueAt(tone0, c.localName, LOCAL_TYPE, l) && tone0[l].selected ensures PcOn(v0, v2, l) {
      assert PcOn(v0, v1, l);
      assert UniqueAt(tone1, c.localName, LOCAL_TYPE, l) && tone1[l].selected;
      assert PcOn(v1, v2, l);
    }
  }

  // ------------------------------------------------------------- supervisor sections

  /** locked(): waiting for the lock can time out; the section itself is atomic. */
  method Lock(world: World) returns (r: Answer<()>)
    requires world.Valid()
    modifies world`calls, world.lock
    ensures world.Valid() && world.calls == old(world.calls) + 1
    ensures r.Raised? == world.replies(old(world.calls)).fails && Entered(world)
  {
    world.lock.sections := world.lock.sections + [Locked(world.calls, world.tone)];
    var asked := world.Ask();
    return if asked.Raised? then Raised else Got(());
  }

  /** Active playback: the locked section of IdleOutputController.observe. */
  method ReconnectPair(world: World, player: P.Player, owed: bool) returns (attempt: I.Attempt)
    requires world.Valid()
    modifies world, world.lock, player
    ensures player.calls != old(player.calls) ==> world.mode == Auto
    ensures Obeys(world) && world.mode == old(world.mode)
    ensures PcNeverDrops(old(world.tone), world.config, old(world.visited), world.visited)
    ensures attempt.Done? ==> world.mode == Auto && (attempt.resumed.Some? <==> attempt.reconnected || owed)
    ensures attempt.Done? && attempt.reconnected ==> ReadBack(old(world.tone), world.tone, world.config, true, true)
    ensures attempt.Done? && !attempt.reconnected ==>
      PairConnected(world.tone, world.config) && world.writes == old(world.writes)
    ensures attempt.Declined? ==>
      world.writes == old(world.writes) && (world.mode != Auto || !OnlyPairSelected(world.tone, world.config))
    ensures world.writes != old(world.writes) ==> world.mode == Auto && OnlyPairSelected(old(world.tone), world.config)
    ensures old(player.calls) <= player.calls
    ensures Entered(world)
    ensures (&& world.Smooth(old(world.calls)) && world.mode == Auto
             && OnlyPair(old(world.tone), world.config) && PcTold(old(world.tone), world.config)) ==>
      (attempt.Done? <==>
       && (PairConnected(old(world.tone), world.config)
           || Joins(old(world.tone), world.config, world.replies(old(world.calls) + 10).reset))
       && ((PairConnected(old(world.tone), world.config) && !owed)
           || P.Resumes(player.replies, old(player.used), player.patience)))
    ensures attempt.Done? && attempt.resumed.Some? ==>
      P.ResumeRules(player.calls[|old(player.calls)|..])
      && P.ResumeMeans(player.calls[|old(player.calls)|..], Got(attempt.resumed.value))
  {
    hide PcNeverDrops, PcStays, PairWrites, ReadBack, SucceedsAsPlanned, P.ResumeRules, P.ResumeMeans, ResolvePair,
      SelectedIds, OnlyPairSelected;
    NothingDrops(world.tone, world.config, world.visited);
    var locked := Lock(world);
    if locked.Raised? { return I.Failed; }
    var mode := world.ReadMode();
    if mode.Raised? { return I.Failed; }
    if mode.value != Auto { return I.Declined; }
    var read := world.Outputs();
    if read.Raised? { return I.Failed; }
    var pair := ResolvePair(read.value, world.config);
    if pair.Raised? { return I.Failed; }
    var selected := SelectedIds(read.value);
    if selected.Raised? { return I.Failed; }
    var pairIds := {pair.value.0.id.value, pair.value.1.id.value};
    if !(selected.value <= pairIds) {
      UnrelatedSelected(read.value, world.config);
      return I.Declined;
    }
    var reconnected := selected.value != pairIds;
    if reconnected {
      OnlyPairKnown(read.value, world.config);
      var once := ReconcileOnce(world, Supervising, true, true);
      StaysThenOn(old(world.tone), world.config, old(world.visited), world.visited, old(world.writes), world.writes);
      if old(AllPermitted(world.writes, world.config)) {
        PairWritesPermitted(old(world.writes), world.writes, world.initial, world.config);
      }
      PairWritesGrow(old(world.writes), world.writes, Supervising, world.config);
      if world.Smooth(old(world.calls)) && PcTold(read.value, world.config) {
        JoinsAsPlanned(read.value, world.tone, world.config, world.replies(old(world.calls) + 10).reset, once);
      }
      if once.Raised? { return I.Failed; }
    }
    if !reconnected && !owed { return I.Done(false, None); }
    var resumed := player.Resume();
    if resumed.Raised? { return I.Failed; }
    return I.Done(reconnected, Some(resumed.value));
  }

  /** The pair can be told, and nothing else is selected. */
  predicate OnlyPair(items: seq<Output>, c: Config) {
    ResolvePair(items, c).Got? && SelectedIds(items).Got? && SelectedIds(items).value <= PairIds(items, c)
  }

  /** No selected entry has the id of a PC output that is not. */
  predicate PcTold(items: seq<Output>, c: Config)
    requires ResolvePair(items, c).Got? && SelectedIds(items).Got?
  {
    var local := ResolvePair(items, c).value.0;
    local.id.value in SelectedIds(items).value ==> local.selected
  }

  /** A reconcile without failures joins the pair: a connected PC must have readable levels, and
      the path that selects both needs a selection that resets no level. */
  predicate Joins(items: seq<Output>, c: Config, reset: Reset)
    requires ResolvePair(items, c).Got? && SelectedIds(items).Got?
  {
    var pair := ResolvePair(items, c).value;
    if pair.0.id.value in SelectedIds(items).value then pair.0.volume.Some? && pair.0.offset.Some?
    else && Harmless(reset, pair.0.id.value, c.localVolume, c.localOffset)
         && Harmless(reset, pair.1.id.value, c.wiimVolume, c.wiimOffset)
  }

  lemma JoinsAsPlanned(items: seq<Output>, tone: seq<Output>, c: Config, reset: Reset, r: Answer<()>)
    requires OnlyPair(items, c) && PcTold(items, c) && SucceedsAsPlanned(items, c, true, true, reset, r)
    requires r.Got? ==> ReadBack(items, tone, c, true, true)
    ensures r.Got? <==> Joins(items, c, reset)
  {
    hide ResolvePair, SelectedIds, Harmless, Settled;
  }

  /** Exactly the configured pair is selected. */
  predicate PairConnected(items: seq<Output>, c: Config) {
    ResolvePair(items, c).Got? && var pair := ResolvePair(items, c).value;
      SelectedIds(items) == Got({pair.0.id.value, pair.1.id.value})
  }

  function PairIds(items: seq<Output>, c: Config): set<string>
    requires ResolvePair(items, c).Got?
  {
    {ResolvePair(items, c).value.0.id.value, ResolvePair(items, c).value.1.id.value}
  }

  lemma UnrelatedSelected(items: seq<Output>, c: Config)
    requires ResolvePair(items, c).Got? && SelectedIds(items).Got?
    requires !(SelectedIds(items).value <= PairIds(items, c))
    ensures !OnlyPairSelected(items, c)
  {
    var id :| id in SelectedIds(items).value && id !in PairIds(items, c);
    assert !PairMember(items, c, id);
  }

  lemma OnlyPairKnown(items: seq<Output>, c: Config)
    requires ResolvePair(items, c).Got? && SelectedIds(items).Got?
    requires SelectedIds(items).value <= PairIds(items, c)
    ensures OnlyPairSelected(items, c)
  {}

  lemma NothingDrops(tone: seq<Output>, c: Config, visited: seq<seq<Output>>)
    ensures PcNeverDrops(tone, c, visited, visited)
  {}

  lemma PairWritesGrow(writes0: seq<Write>, writes: seq<Write>, actor: Actor, c: Config)
    requires PairWrites(writes0, writes, actor, c)
    ensures writes0 <= writes
  {}

  /** Nothing but members of the pair is selected: no unrelated output is the user's choice. */
  ghost predicate OnlyPairSelected(items: seq<Output>, c: Config) {
    SelectedIds(items).Got? && forall id :: id in SelectedIds(items).value ==> PairMember(items, c, id)
  }

  /** One permitted supervisor selection. */
  method SelectPermitted(world: World, ids: seq<string>) returns (r: Answer<()>)
    requires world.Valid()
    requires match world.mode
             case Auto => forall id :: id in ids ==> PairMember(world.tone, world.config, id)
             case Local => LocalId(world.tone, world.config).Some? && ids == [LocalId(world.tone, world.config).value]
             case Stopped => ids == []
             case Manual => false
    modifies world
    ensures Obeys(world) && world.mode == old(world.mode) && world.calls == old(world.calls) + 1
    ensures r.Raised? == world.replies(old(world.calls)).fails
    ensures world.tone == if world.replies(old(world.calls)).applies
                          then ApplySelect(old(world.tone), ids, world.replies(old(world.calls)).reset)
                            else old(world.tone)
    ensures world.visited == old(world.visited) + [world.tone]
    ensures world.writes == old(world.writes) + [Select(Supervising, world.mode, ids, old(world.tone))]
    ensures LocalId(old(world.tone), world.config).Some? && LocalId(old(world.tone), world.config).value in ids ==>
      PcNeverDrops(old(world.tone), world.config, old(world.visited), world.visited)
  {
    hide PcNeverDrops, UnderCurrent, ModeAfter, PairMember, LocalId;
    ghost var reply := world.replies(world.calls);
    r := world.SetOutputs(Supervising, ids);
    SelectingPcKeepsIt(old(world.tone), world.config, ids, reply.reset, old(world.visited), world.tone);
  }

  lemma SelectingPcKeepsIt(tone: seq<Output>, c: Config, ids: seq<string>, reset: Reset, visited: seq<seq<Output>>,
                           next: seq<Output>)
    requires next == tone || next == ApplySelect(tone, ids, reset)
    ensures LocalId(tone, c).Some? && LocalId(tone, c).value in ids ==> PcNeverDrops(tone, c, visited, visited + [next])
  {
    forall l | UniqueAt(tone, c.localName, LOCAL_TYPE, l) { FindsTheUnique(tone, c.localName, LOCAL_TYPE, l); }
  }

  lemma PermittedPush(writes: seq<Write>, w: Write, c: Config)
    requires Permitted(w, c)
    ensures AllPermitted(writes, c) ==> AllPermitted(writes + [w], c)
  {}

  method LevelObeying(world: World, id: string, volume: int) returns (r: Answer<()>)
    requires world.Valid() && VOLUME_RANGE.0 <= volume <= VOLUME_RANGE.1
    requires world.mode == Auto && PairMember(world.tone, world.config, id)
    modifies world
    ensures Obeys(world) && world.mode == old(world.mode) && world.calls == old(world.calls) + 1
    ensures r.Raised? == world.replies(old(world.calls)).fails
    ensures world.tone == if world.replies(old(world.calls)).applies
                          then ApplyVolume(old(world.tone), id, volume) else old(world.tone)
    ensures world.visited == old(world.visited) + [world.tone]
    ensures PcNeverDrops(old(world.tone), world.config, old(world.visited), world.visited)
  {
    hide UnderCurrent, ModeAfter, AllPermitted, PairMember;
    PermittedPush(world.writes, Level(Supervising, world.mode, id, volume, world.tone), world.config);
    r := world.SetVolume(Supervising, id, volume);
  }

  method DelayObeying(world: World, id: string, ms: int) returns (r: Answer<()>)
    requires world.Valid() && OFFSET_RANGE_MS.0 <= ms <= OFFSET_RANGE_MS.1
    requires world.mode == Auto && PairMember(world.tone, world.config, id)
    modifies world
    ensures Obeys(world) && world.mode == old(world.mode) && world.calls == old(world.calls) + 1
    ensures r.Raised? == world.replies(old(world.calls)).fails
    ensures world.tone == if world.replies(old(world.calls)).applies
                          then ApplyOffset(old(world.tone), id, ms) else old(world.tone)
    ensures world.visited == old(world.visited) + [world.tone]
    ensures PcNeverDrops(old(world.tone), world.config, old(world.visited), world.visited)
  {
    hide UnderCurrent, ModeAfter, AllPermitted, PairMember;
    PermittedPush(world.writes, Delay(Supervising, world.mode, id, ms, world.tone), world.config);
    r := world.SetOffset(Supervising, id, ms);
  }

  /** Idle for a minute: IdleOutputController.release. */
  method ReleaseOutputs(world: World) returns (r: I.ReleaseStep)
    requires world.Valid()
    modifies world, world.lock
    ensures Obeys(world) && world.mode == old(world.mode)
    ensures world.writes != old(world.writes) ==> world.mode == Auto && OnlyPairSelected(old(world.tone), world.config)
    ensures r == I.Released ==> forall i :: 0 <= i < |world.tone| ==> !world.tone[i].selected
    ensures r == I.Kept ==>
      world.writes == old(world.writes) && (world.mode != Auto || !OnlyPairSelected(world.tone, world.config))
    ensures r == I.NothingSelected ==> world.tone == old(world.tone) && SelectedIds(world.tone) == Got({})
    ensures world.Smooth(old(world.calls)) && world.mode == Auto && OnlyPair(old(world.tone), world.config) ==>
      r == if SelectedIds(old(world.tone)) == Got({}) then I.NothingSelected else I.Released
  {
    hide UnderCurrent, ModeAfter, AllPermitted, PcNeverDrops, OnlyPairSelected, SelectedIds, ResolvePair;
    var locked := Lock(world);
    if locked.Raised? { return I.ReleaseFailed; }
    var mode := world.ReadMode();
    if mode.Raised? { return I.ReleaseFailed; }
    if mode.value != Auto { return I.Kept; }
    var read := world.Outputs();
    if read.Raised? { return I.ReleaseFailed; }
    var selected := SelectedIds(read.value);
    if selected.Raised? { return I.ReleaseFailed; }
    if selected.value == {} { return I.NothingSelected; }
    var pair := ResolvePair(read.value, world.config);
    if pair.Raised? { return I.ReleaseFailed; }
    if !(selected.value <= {pair.value.0.id.value, pair.value.1.id.value}) {
      UnrelatedSelected(read.value, world.config);
      return I.Kept;
    }
    OnlyPairKnown(read.value, world.config);
    var sent := SelectPermitted(world, []);
    if sent.Raised? { return I.ReleaseFailed; }
    var again := world.Outputs();
    if again.Raised? { return I.ReleaseFailed; }
    if world.Smooth(old(world.calls)) {
      NoneSelected(old(world.tone), world.replies(old(world.calls) + 3).reset);
    }
    if exists i :: 0 <= i < |again.value| && again.value[i].selected { return I.ReleaseFailed; }
    return I.Released;
  }

  lemma NoneSelected(items: seq<Output>, reset: Reset)
    ensures forall i :: 0 <= i < |items| ==> !ApplySelect(items, [], reset)[i].selected
  {}

  predicate PausedByRule(calls: seq<P.Call>) { P.PauseRules(calls, Got(true)) || P.PauseRules(calls, Got(false)) }

  /** Idle for 15 seconds: pausing the bridge's pipe, in auto only. */
  method PauseWhenIdle(world: World, player: P.Player) returns (r: I.PauseStep)
    requires world.Valid()
    modifies world`calls, world.lock, player
    ensures player.calls != old(player.calls) ==> world.mode == Auto
    ensures Obeys(world) && world.mode == old(world.mode)
    ensures old(player.calls) <= player.calls
    ensures world.writes == old(world.writes)
    ensures r == I.NotAutomatic ==> player.calls == old(player.calls)
    ensures r == I.PipePaused ==> world.mode == Auto && PausedByRule(player.calls[|old(player.calls)|..])
    ensures (&& !world.replies(old(world.calls)).fails && !world.replies(old(world.calls) + 1).fails
             && world.mode == Auto) ==>
      (r == I.PipePaused <==> P.Pauses(player.replies, old(player.used)))
  {
    hide P.PauseRules, P.Pauses;
    var locked := Lock(world);
    if locked.Raised? { return I.PauseFailed; }
    var mode := world.ReadMode();
    if mode.Raised? { return I.PauseFailed; }
    if mode.value != Auto { return I.NotAutomatic; }
    var paused := player.PausePcm();
    if paused.Raised? { return I.PauseFailed; }
    if paused.value { assert paused == Got(true); } else { assert paused == Got(false); }
    return I.PipePaused;
  }

  // ------------------------------------------------------------ the PC-only fallback

  /** The local output is connected at its configured levels. */
  predicate PcConfigured(items: seq<Output>, c: Config) {
    match LocalOutput(items, c)
    case Raised => false
    case Got(o) => o.selected && o.volume == Some(c.localVolume) && o.offset == Some(c.localOffset)
  }

  /** What the fallback needs in order to act. */
  predicate FallbackApplies(items: seq<Output>, c: Config) {
    && LocalOutput(items, c).Got?
    && var wiim := Matching(items, c.wiimName, WIIM_TYPE);
       |wiim| <= 1 && (|wiim| == 1 ==> wiim[0].id.Some?)
       && SelectedIds(items).Got?
       && SelectedIds(items).value
          <= {LocalOutput(items, c).value.id.value} + (if |wiim| == 1 then {wiim[0].id.value} else {})
  }

  lemma FallbackIsPair(items: seq<Output>, c: Config)
    requires FallbackApplies(items, c)
    ensures OnlyPairSelected(items, c) && LocalOutput(items, c).Got? && SelectedIds(items).Got?
  {}

  /** The fallback begun as this section leaves the PC connected at its configured levels, if
      it finds the PC sink, applies and can connect, and nothing fails from its first call on. */
  ghost predicate FallbackDelivers(world: World, s: Locked)
    reads world
  {
    (&& world.Smooth(s.call) && world.mode == Auto && world.replies(s.call + 2).yes
     && FallbackApplies(s.tone, world.config) && CanConnect(s.tone, world.config)) ==>
      PcConfigured(world.tone, world.config)
  }

  /** Runtime.ensure_pc_playback. */
  method EnsurePcPlayback(world: World, player: P.Player) returns (r: Answer<bool>)
    requires world.Valid()
    modifies world, world.lock, player
    ensures player.calls != old(player.calls) ==> world.mode == Auto
    ensures Obeys(world) && world.mode == old(world.mode)
    ensures PcNeverDrops(old(world.tone), world.config, old(world.visited), world.visited)
    ensures world.writes != old(world.writes) ==> world.mode == Auto && OnlyPairSelected(old(world.tone), world.config)
    ensures r == Got(true) ==> world.mode == Auto && PcConnected(world.tone, world.config)
    ensures r == Got(false) ==> world.writes == old(world.writes)
    ensures Entered(world) && FallbackDelivers(world, Locked(old(world.calls), old(world.tone)))
    ensures (&& world.Smooth(old(world.calls)) && world.mode == Auto && world.replies(old(world.calls) + 2).yes
             && FallbackApplies(old(world.tone), world.config) && CanConnect(old(world.tone), world.config)) ==>
      (r.Got? <==> P.Resumes(player.replies, old(player.used), player.patience))
  {
    hide PcNeverDrops, FallbackApplies, OnlyPairSelected, LocalOutput, PcConfigured, CanConnect, UnderCurrent,
      ModeAfter, Permitted, PairMember, LocalId, P.Resumes, P.ResumeRules, P.ResumeMeans;
    NothingDrops(world.tone, world.config, world.visited);
    var locked := Lock(world);
    if locked.Raised? { return Raised; }
    var mode := world.ReadMode();
    if mode.Raised? { return Raised; }
    if mode.value != Auto { return Got(false); }
    var present := world.Ask();       // pc_sink_available
    if present.Raised? { return Raised; }
    if !present.value { return Got(false); }
    var read := world.Outputs();
    if read.Raised? { return Raised; }
    var applies := CheckFallback(read.value, world.config);
    if applies != Got(true) { return applies; }
    FallbackIsPair(read.value, world.config);
    r := ConnectPc(world, read.value);
    if r.Raised? { return; }
    var resumed := player.Resume();
    if resumed.Raised? { return Raised; }
    return Got(r.value || resumed.value);
  }

  predicate PcConnected(items: seq<Output>, c: Config) {
    LocalOutput(items, c).Got? && LocalOutput(items, c).value.selected
  }

  /** The checks before the fallback changes anything: ambiguity raises, an explicit selection
      of something else declines. */
  method CheckFallback(items: seq<Output>, c: Config) returns (r: Answer<bool>)
    ensures r == Got(true) <==> FallbackApplies(items, c)
  {
    var local := LocalOutput(items, c);
    if local.Raised? { return Raised; }
    var wiim := Matching(items, c.wiimName, WIIM_TYPE);
    if |wiim| > 1 { return Raised; }
    if |wiim| == 1 && wiim[0].id.None? { return Raised; }
    var pairIds := {local.value.id.value} + (if |wiim| == 1 then {wiim[0].id.value} else {});
    var selected := SelectedIds(items);
    if selected.Raised? { return Raised; }
    return Got(selected.value <= pairIds);
  }

  lemma LocalUnique(items: seq<Output>, c: Config) returns (l: int)
    requires LocalOutput(items, c).Got?
    ensures UniqueAt(items, c.localName, LOCAL_TYPE, l)
  {
    l := UniqueIfFound(items, c.localName, LOCAL_TYPE);
  }

  lemma LocalAt(tone0: seq<Output>, tone: seq<Output>, c: Config, l: int)
    requires UniqueAt(tone0, c.localName, LOCAL_TYPE, l) && SameOutputs(tone, tone0)
    ensures UniqueAt(tone, c.localName, LOCAL_TYPE, l) && LocalOutput(tone, c) == Got(tone[l])
    ensures LocalId(tone, c) == tone[l].id && PairMember(tone, c, tone[l].id.value)
    ensures PcConfigured(tone, c) <==>
      tone[l].selected && tone[l].volume == Some(c.localVolume) && tone[l].offset == Some(c.localOffset)
    ensures PcConnected(tone, c) <==> tone[l].selected
    ensures tone[l].id == tone0[l].id
  {
    FindsTheUnique(tone, c.localName, LOCAL_TYPE, l);
  }

  /** Levels before connecting, so that nothing is heard at a stale level. */
  method PresetPc(world: World, id: string, ghost l: int) returns (r: Answer<()>)
    requires world.Valid() && world.mode == Auto
    requires UniqueAt(world.tone, world.config.localName, LOCAL_TYPE, l) && world.tone[l].id == Some(id)
    modifies world
    ensures Obeys(world) && world.mode == old(world.mode)
    ensures PcNeverDrops(old(world.tone), world.config, old(world.visited), world.visited)
    ensures world.Smooth(old(world.calls)) ==>
      && r.Got? && world.Smooth(world.calls)
      && world.tone
         == ApplyOffset(ApplyVolume(old(world.tone), id, world.config.localVolume), id, world.config.localOffset)
  {
    hide PcNeverDrops, UnderCurrent, ModeAfter, Permitted, PairMember, LocalId;
    LocalAt(world.tone, world.tone, world.config, l);
    r := LevelObeying(world, id, world.config.localVolume);
    if r.Raised? { return; }
    ghost var tone, visited := world.tone, world.visited;
    LocalAt(old(world.tone), world.tone, world.config, l);
    r := DelayObeying(world, id, world.config.localOffset);
    NeverDropsThen(old(world.tone), tone, world.config, old(world.visited), visited, world.visited);
  }

  /** Reading the PC output back, and correcting its levels. */
  method VerifyPc(world: World, changed: bool, ghost l: int) returns (r: Answer<bool>)
    requires world.Valid() && world.mode == Auto && UniqueAt(world.tone, world.config.localName, LOCAL_TYPE, l)
    modifies world
    ensures Obeys(world) && world.mode == old(world.mode)
    ensures PcNeverDrops(old(world.tone), world.config, old(world.visited), world.visited)
    ensures r.Got? ==> PcConnected(world.tone, world.config)
    ensures (&& world.Smooth(old(world.calls)) && old(world.tone)[l].selected
             && old(world.tone)[l].volume.Some? && old(world.tone)[l].offset.Some?) ==>
      r.Got? && PcConfigured(world.tone, world.config)
    ensures r == Got(false) ==> !changed && world.writes == old(world.writes)
  {
    hide PcNeverDrops, LocalOutput, UnderCurrent, ModeAfter, Permitted, AllPermitted, PairMember, LocalId,
      PcConfigured, PcConnected;
    var c := world.config;
    ghost var tone0 := world.tone;
    NothingDrops(world.tone, c, world.visited);
    LocalAt(tone0, tone0, c, l);
    var read := world.Outputs();
    if read.Raised? { return Raised; }
    var local := LocalOutput(read.value, c);
    if local.Raised? || !local.value.selected || local.value.volume.None? { return Raised; }
    var id := local.value.id.value;
    var louder := CorrectVolume(world, id, local.value.volume.value, l);
    if louder.Raised? { return Raised; }
    if local.value.offset.None? { return Raised; }
    ghost var tone, visited := world.tone, world.visited;
    var later := CorrectOffset(world, id, local.value.offset.value, l);
    NeverDropsThen(tone0, tone, c, old(world.visited), visited, world.visited);
    LocalAt(tone0, world.tone, c, l);
    if later.Raised? { return Raised; }
    return Got(changed || louder.value || later.value);
  }

  method CorrectVolume(world: World, id: string, volume: int, ghost l: int) returns (r: Answer<bool>)
    requires world.Valid() && world.mode == Auto && UniqueAt(world.tone, world.config.localName, LOCAL_TYPE, l)
    requires world.tone[l].id == Some(id) && world.tone[l].volume == Some(volume)
    modifies world
    ensures Obeys(world) && world.mode == old(world.mode) && world.calls >= old(world.calls)
    ensures PcNeverDrops(old(world.tone), world.config, old(world.visited), world.visited)
    ensures world.tone[l].selected == old(world.tone)[l].selected && world.tone[l].offset == old(world.tone)[l].offset
    ensures world.Smooth(old(world.calls)) ==> r.Got? && world.tone[l].volume == Some(world.config.localVolume)
    ensures r == Got(false) ==> world.writes == old(world.writes)
  {
    hide PcNeverDrops, UnderCurrent, ModeAfter, Permitted, AllPermitted;
    NothingDrops(world.tone, world.config, world.visited);
    if volume == world.config.localVolume { return Got(false); }
    LocalAt(world.tone, world.tone, world.config, l);
    var sent := LevelObeying(world, id, world.config.localVolume);
    return if sent.Raised? then Raised else Got(true);
  }

  method CorrectOffset(world: World, id: string, ms: int, ghost l: int) returns (r: Answer<bool>)
    requires world.Valid() && world.mode == Auto && UniqueAt(world.tone, world.config.localName, LOCAL_TYPE, l)
    requires world.tone[l].id == Some(id) && world.tone[l].offset == Some(ms)
    modifies world
    ensures Obeys(world) && world.mode == old(world.mode) && world.calls >= old(world.calls)
    ensures PcNeverDrops(old(world.tone), world.config, old(world.visited), world.visited)
    ensures world.tone[l].selected == old(world.tone)[l].selected && world.tone[l].volume == old(world.tone)[l].volume
    ensures world.Smooth(old(world.calls)) ==> r.Got? && world.tone[l].offset == Some(world.config.localOffset)
    ensures r == Got(false) ==> world.writes == old(world.writes)
  {
    hide PcNeverDrops, UnderCurrent, ModeAfter, Permitted, AllPermitted;
    NothingDrops(world.tone, world.config, world.visited);
    if ms == world.config.localOffset { return Got(false); }
    LocalAt(world.tone, world.tone, world.config, l);
    var sent := DelayObeying(world, id, world.config.localOffset);
    return if sent.Raised? then Raised else Got(true);
  }

  /** Selecting the PC alone, with its levels written first when it is not connected yet. */
  method SelectPcAlone(world: World, id: string, preset: bool, ghost l: int) returns (r: Answer<()>)
    requires world.Valid() && world.mode == Auto
    requires UniqueAt(world.tone, world.config.localName, LOCAL_TYPE, l) && world.tone[l].id == Some(id)
    modifies world
    ensures Obeys(world) && world.mode == old(world.mode)
    ensures PcNeverDrops(old(world.tone), world.config, old(world.visited), world.visited)
    ensures world.Smooth(old(world.calls)) ==>
      && r.Got? && world.Smooth(world.calls) && world.tone[l].selected
      && (old(world.tone)[l].volume.Some? ==> world.tone[l].volume.Some?)
      && (old(world.tone)[l].offset.Some? ==> world.tone[l].offset.Some?)
  {
    hide PcNeverDrops, LocalOutput, UnderCurrent, ModeAfter, Permitted, AllPermitted, PairMember, LocalId,
      PcConfigured, PcConnected;
    ghost var tone0, c := world.tone, world.config;
    NothingDrops(world.tone, c, world.visited);
    if preset {
      r := PresetPc(world, id, l);
      if r.Raised? { return; }
    }
    ghost var tone1, visited1 := world.tone, world.visited;
    r := SelectPc(world, id, l);
    NeverDropsThen(tone0, tone1, c, old(world.visited), visited1, world.visited);
  }

  method SelectPc(world: World, id: string, ghost l: int) returns (r: Answer<()>)
    requires world.Valid() && world.mode == Auto
    requires UniqueAt(world.tone, world.config.localName, LOCAL_TYPE, l) && world.tone[l].id == Some(id)
    modifies world
    ensures Obeys(world) && world.mode == old(world.mode)
    ensures PcNeverDrops(old(world.tone), world.config, old(world.visited), world.visited)
    ensures world.Smooth(old(world.calls)) ==>
      && r.Got? && world.Smooth(world.calls) && world.tone[l].selected
      && (old(world.tone)[l].volume.Some? ==> world.tone[l].volume.Some?)
      && (old(world.tone)[l].offset.Some? ==> world.tone[l].offset.Some?)
  {
    hide PcNeverDrops, LocalOutput, UnderCurrent, ModeAfter, Permitted, AllPermitted, PairMember, LocalId,
      PcConfigured, PcConnected;
    LocalAt(world.tone, world.tone, world.config, l);
    r := SelectPermitted(world, [id]);
  }

  /** The writes of the fallback: the PC alone, at its configured levels. */
  method ConnectPc(world: World, items: seq<Output>) returns (r: Answer<bool>)
    requires world.Valid() && world.mode == Auto && items == world.tone
    requires LocalOutput(items, world.config).Got? && SelectedIds(items).Got?
    modifies world
    ensures Obeys(world) && world.mode == old(world.mode)
    ensures PcNeverDrops(items, world.config, old(world.visited), world.visited)
    ensures r.Got? ==> PcConnected(world.tone, world.config)
    ensures world.Smooth(old(world.calls)) && CanConnect(items, world.config) ==>
      r.Got? && PcConfigured(world.tone, world.config)
    ensures r == Got(false) ==> world.writes == old(world.writes)
  {
    hide PcNeverDrops, SelectedIds, LocalOutput, PcConfigured, PcConnected, UnderCurrent, ModeAfter, Permitted,
      PairMember, LocalId;
    var c := world.config;
    ghost var l := LocalUnique(items, c);
    LocalAt(items, items, c, l);
    NothingDrops(world.tone, c, world.visited);
    var id := LocalOutput(items, c).value.id.value;
    var changed := SelectedIds(items).value != {id};
    if changed {
      var sent := SelectPcAlone(world, id, id !in SelectedIds(items).value, l);
      if sent.Raised? { return Raised; }
    }
    LocalAt(items, world.tone, c, l);
    ghost var tone2, visited2 := world.tone, world.visited;
    r := VerifyPc(world, changed, l);
    NeverDropsThen(items, tone2, c, old(world.visited), visited2, world.visited);
  }

  /** The PC entry itself can be selected and its levels are readable. */
  predicate CanConnect(items: seq<Output>, c: Config) {
    && LocalOutput(items, c).Got?
    && var o := LocalOutput(items, c).value;
       o.volume.Some? && o.offset.Some? && (o.selected || SelectedIds(items) != Got({o.id.value}))
  }
}
