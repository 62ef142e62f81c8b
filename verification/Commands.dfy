/** The command line's locked sections: select_local, select_all, stop and one round of
    reconcile. They record the user's intent that the supervisor must respect. */
module Commands {
  import opened Prelude
  import opened Findings
  import opened OwnTone
  import opened Bridge
  import opened Reconciliation
  import opened Intent

  lemma AnyoneElsePermitted(writes0: seq<Write>, writes: seq<Write>, c: Config)
    requires writes0 <= writes
    requires forall k :: |writes0| <= k < |writes| && !writes[k].Policy? ==> writes[k].actor == Cli
    ensures AllPermitted(writes0, c) ==> AllPermitted(writes, c)
  {}

  /** The user's choice is recorded before OwnTone is asked: a failing selection leaves the
      new intent behind, and nothing is selected under an intent that could not be recorded. */
  ghost predicate IntentFirst(mode: Mode, ids: seq<string>, tone: seq<Output>, writes0: seq<Write>,
                              writes: seq<Write>) {
    || writes == writes0
    || writes == writes0 + [Policy(mode)]
    || writes == writes0 + [Policy(mode), Select(Cli, mode, ids, tone)]
  }

  /** Recording a mode, then selecting. */
  method Choose(world: World, mode: Mode, ids: seq<string>) returns (r: Answer<()>)
    requires world.Valid()
    modifies world
    ensures Obeys(world) && IntentFirst(mode, ids, old(world.tone), old(world.writes), world.writes)
    ensures world.calls > old(world.calls)
    ensures world.mode == mode || (r.Raised? && world.writes == old(world.writes) && world.tone == old(world.tone))
    ensures world.tone == old(world.tone)
            || (&& old(world.calls) + 2 == world.calls
                && world.tone == ApplySelect(old(world.tone), ids, world.replies(old(world.calls) + 1).reset))
    ensures world.Smooth(old(world.calls)) ==>
      r.Got? && world.tone == ApplySelect(old(world.tone), ids, world.replies(old(world.calls) + 1).reset)
  {
    hide UnderCurrent, ModeAfter, AllPermitted;
    ghost var writes0 := world.writes;
    r := world.SetMode(mode);
    AnyoneElsePermitted(writes0, world.writes, world.config);
    if r.Raised? { return; }
    ghost var writes1 := world.writes;
    r := world.SetOutputs(Cli, ids);
    AnyoneElsePermitted(writes1, world.writes, world.config);
    assert world.writes == writes0 + [Policy(mode), Select(Cli, mode, ids, old(world.tone))];
  }

  /** stop. */
  method Stop(world: World) returns (r: Answer<()>)
    requires world.Valid()
    modifies world, world.lock
    ensures Obeys(world) && IntentFirst(Stopped, [], old(world.tone), old(world.writes), world.writes)
    ensures world.calls > old(world.calls) && (r.Got? ==> world.mode == Stopped)
    ensures world.mode == Stopped || (r.Raised? && world.writes == old(world.writes) && world.tone == old(world.tone))
    ensures world.tone == old(world.tone) || SelectedIds(world.tone) == Got({})
    ensures world.Smooth(old(world.calls)) ==> r.Got? && SelectedIds(world.tone) == Got({})
  {
    hide UnderCurrent, ModeAfter, AllPermitted;
    var locked := Lock(world);
    if locked.Raised? { return Raised; }
    r := Choose(world, Stopped, []);
    SelectionTakes(old(world.tone), [], world.replies(old(world.calls) + 2).reset);
    assert (set id: string | id in []) == {};
  }

  /** select_local: nothing changes unless the local output is found. */
  method SelectLocal(world: World) returns (r: Answer<()>)
    requires world.Valid()
    modifies world, world.lock
    ensures Obeys(world)
    ensures world.writes != old(world.writes) ==>
      && LocalId(old(world.tone), world.config).Some?
      && IntentFirst(Local, [LocalId(old(world.tone), world.config).value], old(world.tone), old(world.writes),
        world.writes)
    ensures world.mode == Local || (r.Raised? && world.writes == old(world.writes) && world.tone == old(world.tone))
    ensures world.Smooth(old(world.calls)) ==>
      if LocalId(old(world.tone), world.config).Some?
      then r.Got? && SelectedIds(world.tone) == Got({LocalId(old(world.tone), world.config).value})
      else r.Raised? && world.mode == old(world.mode)
  {
    hide UnderCurrent, ModeAfter, AllPermitted, SelectedIds, ApplySelect;
    var locked := Lock(world);
    if locked.Raised? { return Raised; }
    var read := world.Outputs();
    if read.Raised? { return Raised; }
    var local := LocalOutput(read.value, world.config);
    if local.Raised? { return Raised; }
    var id := local.value.id.value;
    r := Choose(world, Local, [id]);
    if world.Smooth(old(world.calls)) {
      OnlySelected(old(world.tone), id, world.replies(old(world.calls) + 3).reset);
    }
  }

  lemma OnlySelected(items: seq<Output>, id: string, reset: Reset)
    requires exists i :: 0 <= i < |items| && items[i].id == Some(id)
    ensures SelectedIds(ApplySelect(items, [id], reset)) == Got({id})
  {
    SelectionTakes(items, [id], reset);
    assert (set x | x in [id]) == {id};
  }

  lemma PairSelected(items: seq<Output>, c: Config, reset: Reset)
    requires ResolvePair(items, c).Got?
    ensures var pair := ResolvePair(items, c).value;
      SelectedIds(ApplySelect(items, [pair.0.id.value, pair.1.id.value], reset))
        == Got({pair.0.id.value, pair.1.id.value})
  {
    var l, w := PairAt(items, c);
    var a, b := items[l].id.value, items[w].id.value;
    SelectionTakes(items, [a, b], reset);
    assert (set x | x in [a, b]) == {a, b};
  }

  /** select_all: the pair is selected under the old mode, and only a selection that did not
      fail makes the mode automatic. */
  method SelectAll(world: World, confirmed: bool) returns (r: Answer<()>)
    requires world.Valid()
    modifies world, world.lock
    ensures Obeys(world)
    ensures !confirmed ==> r.Raised? && world.calls == old(world.calls)
    ensures world.writes != old(world.writes) ==>
      && confirmed && ResolvePair(old(world.tone), world.config).Got?
      && var pair := ResolvePair(old(world.tone), world.config).value;
         var first := Select(Cli, old(world.mode), [pair.0.id.value, pair.1.id.value], old(world.tone));
         world.writes == old(world.writes) + [first] || world.writes == old(world.writes) + [first, Policy(Auto)]
    ensures r.Got? ==> world.mode == Auto
    ensures confirmed && world.Smooth(old(world.calls)) ==>
      && r.Got? == ResolvePair(old(world.tone), world.config).Got?
      && (r.Got? ==> var pair := ResolvePair(old(world.tone), world.config).value;
           SelectedIds(world.tone) == Got({pair.0.id.value, pair.1.id.value}))
  {
    hide UnderCurrent, ModeAfter, AllPermitted, ResolvePair, SelectedIds, LocalId, WiimId, ApplySelect;
    if !confirmed { return Raised; }
    var locked := Lock(world);
    if locked.Raised? { return Raised; }
    var healthy := world.Ask();       // validate_wiim_group
    if healthy.Raised? { return Raised; }
    var read := world.Outputs();
    if read.Raised? { return Raised; }
    var pair := ResolvePair(read.value, world.config);
    if pair.Raised? { return Raised; }
    r := TakePair(world, pair.value.0.id.value, pair.value.1.id.value);
    if world.Smooth(old(world.calls)) {
      PairSelected(old(world.tone), world.config, world.replies(old(world.calls) + 3).reset);
    }
  }

  /** Selecting first, recording the mode second. */
  method TakePair(world: World, localId: string, wiimId: string) returns (r: Answer<()>)
    requires world.Valid()
    modifies world
    ensures Obeys(world)
    ensures var first := Select(Cli, old(world.mode), [localId, wiimId], old(world.tone));
      world.writes == old(world.writes) + [first] || world.writes == old(world.writes) + [first, Policy(Auto)]
    ensures r.Got? ==> world.mode == Auto
    ensures world.Smooth(old(world.calls)) ==>
      r.Got? && world.tone == ApplySelect(old(world.tone), [localId, wiimId], world.replies(old(world.calls)).reset)
  {
    hide UnderCurrent, ModeAfter, AllPermitted;
    ghost var writes0 := world.writes;
    r := world.SetOutputs(Cli, [localId, wiimId]);
    AnyoneElsePermitted(writes0, world.writes, world.config);
    if r.Raised? { return; }
    ghost var writes1 := world.writes;
    r := world.SetMode(Auto);
    AnyoneElsePermitted(writes1, world.writes, world.config);
    assert world.writes == writes1 || world.writes == writes0 + [writes1[|writes0|], Policy(Auto)];
  }

  predicate SelectingResetsNothing(items: seq<Output>, c: Config, reset: Reset)
    requires ResolvePair(items, c).Got?
  {
    var pair := ResolvePair(items, c).value;
    && Harmless(reset, pair.0.id.value, c.localVolume, c.localOffset)
    && Harmless(reset, pair.1.id.value, c.wiimVolume, c.wiimOffset)
  }

  /** One round of reconcile: with respectManual it leaves any explicit choice alone; the mode
      becomes automatic only after the topology was read back as configured. */
  method ReconcileRound(world: World, activate: bool, respectManual: bool) returns (r: Answer<bool>)
    requires world.Valid()
    modifies world, world.lock
    ensures Obeys(world)
    ensures respectManual && old(world.mode) != Auto ==>
      r != Got(true) && world.writes == old(world.writes) && world.tone == old(world.tone)
    ensures r == Got(true) ==>
      world.mode == Auto
      && Settled(world.tone, world.config, activate, world.config.localVolume, world.config.localOffset)
    ensures world.mode != old(world.mode) ==>
      world.mode == Auto
      && Settled(world.tone, world.config, activate, world.config.localVolume, world.config.localOffset)
    ensures (&& world.Smooth(old(world.calls)) && (respectManual ==> old(world.mode) == Auto)
             && ResolvePair(old(world.tone), world.config).Got? && SelectedIds(old(world.tone)).Got?) ==>
      (r == Got(true) <==> (activate ==>
        SelectingResetsNothing(old(world.tone), world.config,
          world.replies(old(world.calls) + if respectManual then 9 else 8).reset)))
  {
    hide UnderCurrent, ModeAfter, AllPermitted, Settled, ResolvePair, SelectedIds, Harmless;
    var locked := Lock(world);
    if locked.Raised? { return Raised; }
    if respectManual {
      var mode := world.ReadMode();
      if mode.Raised? { return Raised; }
      if mode.value != Auto { return Got(false); }
    }
    ghost var writes0 := world.writes;
    var once := ReconcileOnce(world, Cli, activate, false);
    CliPairPermitted(writes0, world.writes, world.config);
    if once.Raised? { return Raised; }
    ghost var writes1 := world.writes;
    var set_ := world.SetMode(Auto);
    AnyoneElsePermitted(writes1, world.writes, world.config);
    return if set_.Raised? then Raised else Got(true);
  }

  lemma CliPairPermitted(writes0: seq<Write>, writes: seq<Write>, c: Config)
    requires PairWrites(writes0, writes, Cli, c)
    ensures writes0 <= writes && (AllPermitted(writes0, c) ==> AllPermitted(writes, c))
  {
    AnyoneElsePermitted(writes0, writes, c);
  }
}
