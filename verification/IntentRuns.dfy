/** Runs of the output protocol: the locked sections of the command line and of the supervisor
    in any order, with any answers, and with changes made in OwnTone's own interface between
    them. */
module IntentRuns {
  import opened Prelude
  import opened Findings
  import opened OwnTone
  import opened Bridge
  import opened Reconciliation
  import opened Intent
  import opened Commands
  import opened RuntimeOutputs
  import P = PcmPlayback

  /** One locked section, or a change from outside between two sections. */
  datatype Section =
    | CliStop
    | CliLocal
    | CliAll(confirmed: bool)
    | CliReconcile(activate: bool, respectManual: bool)
    | Reconnect(owed: bool)                 // IdleOutputController.observe while playing
    | PauseIdle                             // ... after 15 idle seconds
    | ReleaseIdle                           // ... after 60 idle seconds
    | Fallback                              // Runtime.ensure_pc_playback
    | Hold(tickMode: Mode, playing: bool)   // Runtime.reconcile under local or stopped
    | Rejoin                                // Runtime.repair of wiim_disconnected
    | ResumePlayer                          // Runtime.repair of pcm_paused
    | Interface(tone: seq<Output>)          // the user, in OwnTone's interface

  predicate FromSupervisor(s: Section) {
    s.Reconnect? || s.PauseIdle? || s.ReleaseIdle? || s.Fallback? || s.Hold? || s.Rejoin? || s.ResumePlayer?
  }

  /** Supervisor sections never change the mode. */
  method Play(world: World, player: P.Player, s: Section)
    requires world.Valid()
    modifies world, world.lock, player
    ensures world.Valid() && old(world.writes) <= world.writes
    ensures old(AllPermitted(world.writes, world.config)) ==> AllPermitted(world.writes, world.config)
    ensures FromSupervisor(s) || s.Interface? ==> world.mode == old(world.mode)
    ensures player.calls != old(player.calls) ==> FromSupervisor(s) && (world.mode == Auto || world.mode == Local)
    ensures s.CliStop? && world.writes != old(world.writes) ==> world.mode == Stopped
    ensures s.CliLocal? && world.writes != old(world.writes) ==> world.mode == Local
  {
    hide UnderCurrent, ModeAfter, AllPermitted, Settled, PcNeverDrops, OnlyPairSelected, Held, Desired,
      SelectedIds, ResolvePair;
    match s
    case CliStop => var r := Stop(world);
    case CliLocal => var r := SelectLocal(world);
    case CliAll(confirmed) => var r := SelectAll(world, confirmed);
    case CliReconcile(activate, respectManual) => var r := ReconcileRound(world, activate, respectManual);
    case Reconnect(owed) => var r := ReconnectPair(world, player, owed);
    case PauseIdle => var r := PauseWhenIdle(world, player);
    case ReleaseIdle => var r := ReleaseOutputs(world);
    case Fallback => var r := EnsurePcPlayback(world, player);
    case Hold(mode, playing) =>
      if mode == Local || mode == Stopped { var r := HoldSelection(world, player, mode, playing); }
    case Rejoin => var r := RejoinSession(world, player);
    case ResumePlayer => var r := RepairPcm(world, player);
    case Interface(tone) => world.ChangedOutside(tone);
  }

  /** A section of a run: the requests before it, and whether it called the player. */
  datatype Played = Played(s: Section, before: nat, called: bool)

  /** The player is called by the supervisor only, and only in `auto` and `local`. */
  ghost predicate PlayerLeftAlone(played: seq<Played>, initial: Mode, writes: seq<Write>) {
    forall i :: 0 <= i < |played| && played[i].called ==>
      && FromSupervisor(played[i].s) && played[i].before <= |writes|
      && ModeAfter(initial, writes[..played[i].before]) in {Auto, Local}
  }

  /** Any interleaving: every request of the supervisor, for selections, levels and the player,
      is permitted by the mode in force when it was sent. */
  method Run(config: Config, replies: nat -> Reply, tone: seq<Output>, initial: Mode,
             playerReplies: nat -> P.Reply, patience: nat, script: seq<Section>)
    returns (writes: seq<Write>, final: Mode, played: seq<Played>)
    requires ValidConfig(config)
    ensures AllPermitted(writes, config) && UnderCurrent(initial, writes)
    ensures |played| == |script| && forall i :: 0 <= i < |script| ==> played[i].s == script[i]
    ensures PlayerLeftAlone(played, initial, writes)
    ensures final == ModeAfter(initial, writes)
    ensures (forall i :: 0 <= i < |script| ==> FromSupervisor(script[i]) || script[i].Interface?) ==> final == initial
  {
    hide UnderCurrent, ModeAfter, AllPermitted, PlayerLeftAlone;
    var world := new World(config, replies, tone, initial);
    var player := new P.Player(playerReplies, patience);
    played := [];
    NoWritesYet(initial, config);
    for i := 0 to |script|
      invariant fresh(world) && fresh(world.lock) && fresh(player)
      invariant world.Valid() && world.config == config && world.initial == initial
      invariant AllPermitted(world.writes, config) && PlayerLeftAlone(played, initial, world.writes)
      invariant |played| == i && forall j :: 0 <= j < i ==> played[j].s == script[j]
      invariant (forall j :: 0 <= j < i ==> FromSupervisor(script[j]) || script[j].Interface?) ==> world.mode == initial
    {
      var before, calls := world.writes, player.calls;
      ghost var mode := world.mode;
      Play(world, player, script[i]);
      var next := Played(script[i], |before|, player.calls != calls);
      PlayedPush(played, initial, before, world.writes, next, mode);
      played := played + [next];
    }
    return world.writes, world.mode, played;
  }

  lemma PlayedPush(played: seq<Played>, initial: Mode, before: seq<Write>, writes: seq<Write>, next: Played, mode: Mode)
    requires PlayerLeftAlone(played, initial, before) && before <= writes && next.before == |before|
    requires mode == ModeAfter(initial, before)
    requires next.called ==> FromSupervisor(next.s) && mode in {Auto, Local}
    ensures PlayerLeftAlone(played + [next], initial, writes)
  {
    hide ModeAfter;
    forall i | 0 <= i < |played| && played[i].called
      ensures ModeAfter(initial, writes[..played[i].before]) in {Auto, Local}
    {
      assert writes[..played[i].before] == before[..played[i].before];
    }
    assert writes[..|before|] == before;
  }

  lemma NoWritesYet(initial: Mode, c: Config)
    ensures PlayerLeftAlone([], initial, [])
    ensures AllPermitted([], c) && UnderCurrent(initial, []) && ModeAfter(initial, []) == initial
  {}

  /** After the mode became `manual`, and until it is changed again, the supervisor sends nothing
      at all; after `stopped` only empty selections; after `local` only selections of the local
      output; after `auto` only what concerns the pair. */
  lemma {:induction false} HeldUntilChanged(initial: Mode, writes: seq<Write>, c: Config, i: nat, j: nat)
    requires AllPermitted(writes, c) && UnderCurrent(initial, writes)
    requires i < j < |writes| && writes[i].Policy? && forall k :: i < k <= j ==> !writes[k].Policy?
    requires writes[j].actor == Supervising
    ensures writes[i].mode != Manual
    ensures writes[i].mode == Stopped ==> writes[j].Select? && writes[j].ids == []
    ensures writes[i].mode == Local ==>
      && writes[j].Select? && LocalId(writes[j].items, c).Some?
      && writes[j].ids == [LocalId(writes[j].items, c).value]
    ensures writes[i].mode == Auto ==> forall id :: id in Named(writes[j]) ==> PairMember(writes[j].items, c, id)
  {
    ModeSince(initial, writes, i, j);
    assert Permitted(writes[j], c);
  }

  lemma {:induction false} ModeSince(initial: Mode, writes: seq<Write>, i: nat, j: nat)
    requires i < j <= |writes| && writes[i].Policy? && forall k :: i < k < j ==> !writes[k].Policy?
    ensures ModeAfter(initial, writes[..j]) == writes[i].mode
    decreases j
  {
    assert writes[..j][..j - 1] == writes[..j - 1];
    if j > i + 1 { ModeSince(initial, writes, i, j - 1); }
  }

  /** A stop or a local choice whose own selection failed is completed by the first supervisor
      step of that mode without failures, whatever the supervisor did in between: the intent was
      recorded first. `since` is the first call of that step and `before` what it found. */
  method ChoiceIsCompleted(world: World, player: P.Player, choice: Mode, between: seq<Section>, playing: bool)
    returns (chosen: Answer<()>, held: Answer<bool>, ghost since: nat, ghost before: seq<Output>)
    requires world.Valid() && (choice == Stopped || choice == Local)
    requires forall i :: 0 <= i < |between| ==> FromSupervisor(between[i])
    modifies world, world.lock, player
    ensures world.Valid() && (chosen.Got? ==> world.mode == choice)
    ensures choice == Stopped && between == [] && SelectedIds(old(world.tone)).Got? ==> SelectedIds(before).Got?
    ensures (&& world.mode == choice && world.Smooth(since)
             && SelectedIds(before).Got? && Desired(before, world.config, choice).Some?) ==>
      Held(world.tone, world.config, choice)
  {
    hide UnderCurrent, ModeAfter, AllPermitted, SelectedIds, IntentFirst, Held, Desired, LocalId;
    if choice == Stopped { chosen := Stop(world); } else { chosen := SelectLocal(world); }
    ghost var chose, left := world.mode, world.tone;
    for i := 0 to |between|
      invariant world.Valid() && world.mode == chose && (i == 0 ==> world.tone == left)
    {
      Play(world, player, between[i]);
    }
    since, before := world.calls, world.tone;
    held := HoldSelection(world, player, choice, playing);
  }
}
