/** bridge.reconcile_once: restoring the configured topology, with and without keeping the PC
    output connected throughout. */
module Reconciliation {
  import opened Prelude
  import opened Findings
  import opened OwnTone
  import opened Bridge

  /** The output at position i is selected and at the levels it had in `start`. */
  predicate Keeps(items: seq<Output>, start: seq<Output>, i: int) {
    && 0 <= i < |start| && SameOutputs(items, start)
    && items[i].selected && items[i].volume == start[i].volume && items[i].offset == start[i].offset
  }

  /** Every OwnTone state since `before` keeps the output at position i. */
  ghost predicate KeptSince(before: seq<seq<Output>>, after: seq<seq<Output>>, start: seq<Output>, i: int) {
    before <= after && forall k :: |before| <= k < |after| ==> Keeps(after[k], start, i)
  }

  /** The writes added to `before`: requests by this actor that concern pair members only; no mode. */
  ghost predicate PairWrites(before: seq<Write>, after: seq<Write>, actor: Actor, c: Config) {
    before <= after && forall k :: |before| <= k < |after| ==> PairWrite(after[k], actor, c)
  }

  predicate PairWrite(w: Write, actor: Actor, c: Config) {
    !w.Policy? && w.actor == actor && forall id :: id in Named(w) ==> PairMember(w.items, c, id)
  }

  predicate SetsLevelOf(w: Write, id: string) { (w.Level? || w.Delay?) && w.id == id }

  /** No write added to `before` sets a level or offset of this output. */
  predicate LevelsUntouched(before: seq<Write>, after: seq<Write>, id: string) {
    before <= after && forall k :: |before| <= k < |after| ==> !SetsLevelOf(after[k], id)
  }

  /** Exactly the pair (or nothing) is selected, at these levels. */
  predicate Settled(items: seq<Output>, c: Config, active: bool, localVolume: int, localOffset: int) {
    match ResolvePair(items, c)
    case Raised => false
    case Got(pair) =>
      && SelectedIds(items) == Got(if active then {pair.0.id.value, pair.1.id.value} else {})
      && pair.0.volume == Some(localVolume) && pair.0.offset == Some(localOffset)
      && pair.1.volume == Some(c.wiimVolume) && pair.1.offset == Some(c.wiimOffset)
  }

  // ------------------------------------------------------------- small facts about states

  lemma SelectKeeps(items: seq<Output>, start: seq<Output>, i: int, ids: seq<string>, reset: Reset)
    requires Keeps(items, start, i) && start[i].id.Some? && start[i].id.value in ids
    ensures Keeps(ApplySelect(items, ids, reset), start, i)
  {}

  lemma MemberOfPair(items: seq<Output>, start: seq<Output>, c: Config)
    requires SameOutputs(start, items) && ResolvePair(start, c).Got?
    ensures PairMember(items, c, ResolvePair(start, c).value.0.id.value)
    ensures PairMember(items, c, ResolvePair(start, c).value.1.id.value)
  {
    SamePair(start, items, c);
  }

  /** The pair's positions: they never move, and the ids there are the pair's. */
  lemma PairAt(items: seq<Output>, c: Config) returns (l: int, w: int)
    requires ResolvePair(items, c).Got?
    ensures UniqueAt(items, c.localName, LOCAL_TYPE, l) && UniqueAt(items, c.wiimName, WIIM_TYPE, w)
    ensures ResolvePair(items, c).value == (items[l], items[w]) && items[l].id != items[w].id
  {
    l := UniqueIfFound(items, c.localName, LOCAL_TYPE);
    w := UniqueIfFound(items, c.wiimName, WIIM_TYPE);
  }

  /** Settled, said of positions. */
  lemma SettledAt(items: seq<Output>, start: seq<Output>, c: Config, l: int, w: int, active: bool, volume: int,
                  offset: int)
    requires SameOutputs(start, items) && ResolvePair(start, c).Got?
    requires UniqueAt(start, c.localName, LOCAL_TYPE, l) && UniqueAt(start, c.wiimName, WIIM_TYPE, w)
    ensures Settled(items, c, active, volume, offset) <==>
      && SelectedIds(items) == Got(if active then {items[l].id.value, items[w].id.value} else {})
      && items[l].volume == Some(volume) && items[l].offset == Some(offset)
      && items[w].volume == Some(c.wiimVolume) && items[w].offset == Some(c.wiimOffset)
  {
    SamePair(start, items, c);
    assert UniqueAt(items, c.localName, LOCAL_TYPE, l) && UniqueAt(items, c.wiimName, WIIM_TYPE, w);
    FindsTheUnique(items, c.localName, LOCAL_TYPE, l);
    FindsTheUnique(items, c.wiimName, WIIM_TYPE, w);
  }

  /** Level writes do not change what is selected. */
  lemma {:induction false} SameSelection(a: seq<Output>, b: seq<Output>)
    requires |a| == |b| && forall i :: 0 <= i < |a| ==> a[i].id == b[i].id && a[i].selected == b[i].selected
    ensures SelectedIds(a) == SelectedIds(b)
  {
    if a != [] {
      SameSelection(a[1..], b[1..]);
    }
  }

  // ------------------------------------------------------------------- the two paths

  /** What the PC-preserving join has kept so far, from the writes and states before it. */
  ghost predicate Joining(c: Config, actor: Actor, items: seq<Output>, l: int,
                          writes0: seq<Write>, visited0: seq<seq<Output>>, writes: seq<Write>,
                          visited: seq<seq<Output>>, tone: seq<Output>)
    requires 0 <= l < |items| && items[l].id.Some?
  {
    && SameOutputs(tone, items) && SameOutputs(items, tone) && (writes == writes0 ==> tone == items)
    && PairWrites(writes0, writes, actor, c)
    && LevelsUntouched(writes0, writes, items[l].id.value)
    && visited0 <= visited
    && (items[l].selected ==> KeptSince(visited0, visited, items, l) && Keeps(tone, items, l))
  }

  lemma JoiningSelect(c: Config, actor: Actor, items: seq<Output>, l: int, writes0: seq<Write>,
                      visited0: seq<seq<Output>>,
                      writes: seq<Write>, visited: seq<seq<Output>>, tone: seq<Output>, w: Write, next: seq<Output>)
    requires ResolvePair(items, c).Got? && UniqueAt(items, c.localName, LOCAL_TYPE, l)
    requires Joining(c, actor, items, l, writes0, visited0, writes, visited, tone)
    requires w.Select? && w.actor == actor && w.items == tone
    requires var pair := ResolvePair(items, c).value;
      w.ids == [pair.0.id.value] || w.ids == [pair.0.id.value, pair.1.id.value]
    requires next == tone || exists reset: Reset :: next == ApplySelect(tone, w.ids, reset)
    ensures Joining(c, actor, items, l, writes0, visited0, writes + [w], visited + [next], next)
  {
    MemberOfPair(tone, items, c);
    FindsTheUnique(items, c.localName, LOCAL_TYPE, l);
    PairWritesPush(writes0, writes, actor, c, w);
    UntouchedPush(writes0, writes, items[l].id.value, w);
    hide PairWrites, LevelsUntouched, PairMember, ResolvePair, LocalOutput, SameOutputs, Keeps, KeptSince;
    if next != tone {
      var reset: Reset :| next == ApplySelect(tone, w.ids, reset);
      SelectSame(tone, items, w.ids, reset);
      if items[l].selected { SelectKeeps(tone, items, l, w.ids, reset); }
    }
    if items[l].selected { KeptPush(visited0, visited, items, l, next); }
  }

  lemma UntouchedPush(writes0: seq<Write>, writes: seq<Write>, id: string, w: Write)
    requires LevelsUntouched(writes0, writes, id) && !SetsLevelOf(w, id)
    ensures LevelsUntouched(writes0, writes + [w], id)
  {}

  lemma KeptPush(visited0: seq<seq<Output>>, visited: seq<seq<Output>>, start: seq<Output>, i: int, next: seq<Output>)
    requires KeptSince(visited0, visited, start, i) && Keeps(next, start, i)
    ensures KeptSince(visited0, visited + [next], start, i)
  {}

  lemma SelectSame(items: seq<Output>, start: seq<Output>, ids: seq<string>, reset: Reset)
    requires SameOutputs(items, start) && SameOutputs(start, items)
    ensures SameOutputs(ApplySelect(items, ids, reset), start) && SameOutputs(start, ApplySelect(items, ids, reset))
  {}

  lemma PairWritesPush(writes0: seq<Write>, writes: seq<Write>, actor: Actor, c: Config, w: Write)
    requires PairWrites(writes0, writes, actor, c) && PairWrite(w, actor, c)
    ensures PairWrites(writes0, writes + [w], actor, c)
  {}

  lemma JoiningLevel(c: Config, actor: Actor, items: seq<Output>, l: int, writes0: seq<Write>,
                     visited0: seq<seq<Output>>,
                     writes: seq<Write>, visited: seq<seq<Output>>, tone: seq<Output>, w: Write, next: seq<Output>)
    requires 0 <= l < |items| && items[l].id.Some?
    requires Joining(c, actor, items, l, writes0, visited0, writes, visited, tone)
    requires (w.Level? || w.Delay?) && w.id != items[l].id.value && PairWrite(w, actor, c)
    requires || next == tone
             || (w.Level? && next == ApplyVolume(tone, w.id, w.volume))
             || (w.Delay? && next == ApplyOffset(tone, w.id, w.ms))
    ensures Joining(c, actor, items, l, writes0, visited0, writes + [w], visited + [next], next)
  {
    hide PairWrite;
  }

  lemma JoiningSays(c: Config, actor: Actor, items: seq<Output>, l: int, writes0: seq<Write>,
                    visited0: seq<seq<Output>>,
                    writes: seq<Write>, visited: seq<seq<Output>>, tone: seq<Output>)
    requires 0 <= l < |items| && items[l].id.Some?
    requires Joining(c, actor, items, l, writes0, visited0, writes, visited, tone)
    ensures SameOutputs(tone, items) && SameOutputs(items, tone)
    ensures items[l].selected ==> tone[l].volume == items[l].volume && tone[l].offset == items[l].offset
  {}

  /** Writing the WiiM's configured level and offset. */
  method SetWiimLevels(world: World, actor: Actor, wiimId: string, ghost items: seq<Output>, ghost l: int,
                       ghost writes0: seq<Write>, ghost visited0: seq<seq<Output>>)
    returns (r: Answer<()>)
    requires world.Valid() && 0 <= l < |items| && items[l].id.Some? && wiimId != items[l].id.value
    requires ResolvePair(items, world.config).Got? && ResolvePair(items, world.config).value.1.id.value == wiimId
    requires Joining(world.config, actor, items, l, writes0, visited0, world.writes, world.visited, world.tone)
    modifies world
    ensures world.Valid() && world.mode == old(world.mode) && world.calls >= old(world.calls)
    ensures Joining(world.config, actor, items, l, writes0, visited0, world.writes, world.visited, world.tone)
    ensures world.Smooth(old(world.calls)) ==>
      && r.Got? && world.Smooth(world.calls)
      && world.tone
         == ApplyOffset(ApplyVolume(old(world.tone), wiimId, world.config.wiimVolume), wiimId, world.config.wiimOffset)
  {
    hide Joining, ResolvePair;
    r := JoinVolume(world, actor, wiimId, items, l, writes0, visited0);
    if r.Raised? { return; }
    r := JoinOffset(world, actor, wiimId, items, l, writes0, visited0);
  }

  lemma JoiningWiim(c: Config, actor: Actor, items: seq<Output>, l: int, writes0: seq<Write>,
                    visited0: seq<seq<Output>>,
                    writes: seq<Write>, visited: seq<seq<Output>>, tone: seq<Output>, wiimId: string)
    requires 0 <= l < |items| && items[l].id.Some?
    requires ResolvePair(items, c).Got? && ResolvePair(items, c).value.1.id.value == wiimId
    requires Joining(c, actor, items, l, writes0, visited0, writes, visited, tone)
    ensures PairMember(tone, c, wiimId)
  {
    JoiningSays(c, actor, items, l, writes0, visited0, writes, visited, tone);
    MemberOfPair(tone, items, c);
  }

  method JoinVolume(world: World, actor: Actor, wiimId: string, ghost items: seq<Output>, ghost l: int,
                    ghost writes0: seq<Write>, ghost visited0: seq<seq<Output>>)
    returns (r: Answer<()>)
    requires world.Valid() && 0 <= l < |items| && items[l].id.Some? && wiimId != items[l].id.value
    requires ResolvePair(items, world.config).Got? && ResolvePair(items, world.config).value.1.id.value == wiimId
    requires Joining(world.config, actor, items, l, writes0, visited0, world.writes, world.visited, world.tone)
    modifies world
    ensures world.Valid() && world.mode == old(world.mode) && world.calls == old(world.calls) + 1
    ensures Joining(world.config, actor, items, l, writes0, visited0, world.writes, world.visited, world.tone)
    ensures world.Smooth(old(world.calls)) ==>
      r.Got? && world.tone == ApplyVolume(old(world.tone), wiimId, world.config.wiimVolume)
  {
    hide Joining, PairMember, ResolvePair, UnderCurrent, ModeAfter;
    var c := world.config;
    ghost var writes, visited, tone := world.writes, world.visited, world.tone;
    ghost var w := Level(actor, world.mode, wiimId, c.wiimVolume, tone);
    JoiningWiim(c, actor, items, l, writes0, visited0, writes, visited, tone, wiimId);
    r := world.SetVolume(actor, wiimId, c.wiimVolume);
    JoiningLevel(c, actor, items, l, writes0, visited0, writes, visited, tone, w, world.tone);
  }

  method JoinOffset(world: World, actor: Actor, wiimId: string, ghost items: seq<Output>, ghost l: int,
                    ghost writes0: seq<Write>, ghost visited0: seq<seq<Output>>)
    returns (r: Answer<()>)
    requires world.Valid() && 0 <= l < |items| && items[l].id.Some? && wiimId != items[l].id.value
    requires ResolvePair(items, world.config).Got? && ResolvePair(items, world.config).value.1.id.value == wiimId
    requires Joining(world.config, actor, items, l, writes0, visited0, world.writes, world.visited, world.tone)
    modifies world
    ensures world.Valid() && world.mode == old(world.mode) && world.calls == old(world.calls) + 1
    ensures Joining(world.config, actor, items, l, writes0, visited0, world.writes, world.visited, world.tone)
    ensures world.Smooth(old(world.calls)) ==>
      r.Got? && world.tone == ApplyOffset(old(world.tone), wiimId, world.config.wiimOffset)
  {
    hide Joining, PairMember, ResolvePair, UnderCurrent, ModeAfter;
    var c := world.config;
    ghost var writes, visited, tone := world.writes, world.visited, world.tone;
    ghost var w := Delay(actor, world.mode, wiimId, c.wiimOffset, tone);
    JoiningWiim(c, actor, items, l, writes0, visited0, writes, visited, tone, wiimId);
    r := world.SetOffset(actor, wiimId, c.wiimOffset);
    JoiningLevel(c, actor, items, l, writes0, visited0, writes, visited, tone, w, world.tone);
  }

  method SelectJoining(world: World, actor: Actor, ids: seq<string>, ghost items: seq<Output>, ghost l: int,
                       ghost writes0: seq<Write>, ghost visited0: seq<seq<Output>>)
    returns (r: Answer<()>)
    requires world.Valid() && ResolvePair(items, world.config).Got?
    requires UniqueAt(items, world.config.localName, LOCAL_TYPE, l)
    requires var pair := ResolvePair(items, world.config).value;
      ids == [pair.0.id.value] || ids == [pair.0.id.value, pair.1.id.value]
    requires Joining(world.config, actor, items, l, writes0, visited0, world.writes, world.visited, world.tone)
    modifies world
    ensures world.Valid() && world.mode == old(world.mode) && world.calls >= old(world.calls)
    ensures Joining(world.config, actor, items, l, writes0, visited0, world.writes, world.visited, world.tone)
    ensures world.Smooth(old(world.calls)) ==>
      r.Got? && world.Smooth(world.calls) && exists reset: Reset ::
        world.tone == ApplySelect(old(world.tone), ids, reset)
  {
    hide Joining;
    ghost var writes, visited, tone, reset := world.writes, world.visited, world.tone, world.replies(world.calls).reset;
    r := world.SetOutputs(actor, ids);
    assert world.tone == tone || world.tone == ApplySelect(tone, ids, reset);
    JoiningSelect(world.config, actor, items, l, writes0, visited0, writes, visited, tone,
                  Select(actor, world.mode, ids, tone), world.tone);
  }

  /** Recycling only the WiiM session, with the PC output connected throughout. */
  method RejoinWiim(world: World, actor: Actor, items: seq<Output>, local: Output, wiim: Output, ghost l: int,
                    ghost w: int)
    returns (r: Answer<()>)
    requires world.Valid() && items == world.tone && ResolvePair(items, world.config) == Got((local, wiim))
    requires UniqueAt(items, world.config.localName, LOCAL_TYPE, l) && items[l] == local
    requires UniqueAt(items, world.config.wiimName, WIIM_TYPE, w) && items[w] == wiim
    requires SelectedIds(items).Got? && local.id.value in SelectedIds(items).value
    modifies world
    ensures world.Valid() && world.mode == old(world.mode) && world.calls >= old(world.calls)
    ensures Joining(world.config, actor, items, l, old(world.writes), old(world.visited),
                    world.writes, world.visited, world.tone)
    ensures r.Got? ==> local.volume.Some? && local.offset.Some?
    ensures r.Got? ==> Settled(world.tone, world.config, true, local.volume.value, local.offset.value)
    ensures (&& world.Smooth(old(world.calls)) && local.volume.Some? && local.offset.Some? && local.selected
             && SelectedIds(items).value <= {local.id.value, wiim.id.value}) ==> r.Got?
  {
    var c := world.config;
    var localId, wiimId := local.id.value, wiim.id.value;
    ghost var writes0, visited0 := world.writes, world.visited;
    assert Joining(c, actor, items, l, writes0, visited0, world.writes, world.visited, world.tone);
    hide Joining, Settled, SelectedIds, ResolvePair, UnderCurrent, ModeAfter;
    if !(SelectedIds(items).value <= {localId, wiimId}) { return Raised; }
    if local.volume.None? || local.offset.None? { return Raised; }
    r := RejoinWrites(world, actor, localId, wiimId, wiimId in SelectedIds(items).value, items, l, w);
    if r.Raised? { return; }
    var refreshed := world.Outputs();
    if refreshed.Raised? { return Raised; }
    r := if Settled(refreshed.value, c, true, local.volume.value, local.offset.value) then Got(()) else Raised;
  }

  /** The writes of the join. Selecting the WiiM may reset its level, so it is written again. */
  method RejoinWrites(world: World, actor: Actor, localId: string, wiimId: string, connected: bool,
                      ghost items: seq<Output>, ghost l: int, ghost w: int)
    returns (r: Answer<()>)
    requires world.Valid() && items == world.tone
    requires UniqueAt(items, world.config.localName, LOCAL_TYPE, l) && items[l].id == Some(localId)
    requires UniqueAt(items, world.config.wiimName, WIIM_TYPE, w) && items[w].id == Some(wiimId) && localId != wiimId
    requires ResolvePair(items, world.config) == Got((items[l], items[w]))
    modifies world
    ensures world.Valid() && world.mode == old(world.mode) && world.calls >= old(world.calls)
    ensures Joining(world.config, actor, items, l, old(world.writes), old(world.visited),
                    world.writes, world.visited, world.tone)
    ensures world.Smooth(old(world.calls)) && items[l].volume.Some? && items[l].offset.Some? && items[l].selected ==>
      r.Got? && Settled(world.tone, world.config, true, items[l].volume.value, items[l].offset.value)
  {
    var c := world.config;
    ghost var writes0, visited0 := world.writes, world.visited;
    assert Joining(c, actor, items, l, writes0, visited0, world.writes, world.visited, world.tone);
    hide Joining, Settled, SelectedIds, ResolvePair, UnderCurrent, ModeAfter;
    if connected {
      r := SelectJoining(world, actor, [localId], items, l, writes0, visited0);
      if r.Raised? { return; }
    }
    r := SetWiimLevels(world, actor, wiimId, items, l, writes0, visited0);
    if r.Raised? { return; }
    ghost var before := world.tone;
    JoiningSays(c, actor, items, l, writes0, visited0, world.writes, world.visited, world.tone);
    r := SelectJoining(world, actor, [localId, wiimId], items, l, writes0, visited0);
    if r.Raised? { return; }
    ghost var joined := world.tone;
    r := SetWiimLevels(world, actor, wiimId, items, l, writes0, visited0);
    if world.Smooth(old(world.calls)) && items[l].selected && items[l].volume.Some? && items[l].offset.Some? {
      JoiningSays(c, actor, items, l, writes0, visited0, world.writes, world.visited, world.tone);
      RejoinSucceeds(items, before, joined, world.tone, c, l, w);
    }
  }

  /** Selecting two outputs and then writing levels leaves exactly those two selected. */
  lemma BothSelected(before: seq<Output>, joined: seq<Output>, final: seq<Output>, l: int, w: int, a: string,
                     b: string, reset: Reset)
    requires 0 <= l < |before| && 0 <= w < |before| && before[l].id == Some(a) && before[w].id == Some(b)
    requires joined == ApplySelect(before, [a, b], reset) && |final| == |joined|
    requires forall i :: 0 <= i < |joined| ==> final[i].id == joined[i].id && final[i].selected == joined[i].selected
    ensures SelectedIds(final) == Got({a, b})
  {
    hide SelectedIds;
    SelectionTakes(before, [a, b], reset);
    SameSelection(joined, final);
    assert (set id | id in [a, b]) == {a, b};
  }

  /** With every write taking effect, the second level write repairs any reset. */
  lemma RejoinSucceeds(items: seq<Output>, before: seq<Output>, joined: seq<Output>, final: seq<Output>, c: Config,
                       l: int, w: int)
    requires ResolvePair(items, c).Got?
    requires UniqueAt(items, c.localName, LOCAL_TYPE, l) && UniqueAt(items, c.wiimName, WIIM_TYPE, w)
    requires items[l].id != items[w].id && items[l].volume.Some? && items[l].offset.Some?
    requires SameOutputs(before, items)
    requires exists reset: Reset :: joined == ApplySelect(before, [items[l].id.value, items[w].id.value], reset)
    requires final == ApplyOffset(ApplyVolume(joined, items[w].id.value, c.wiimVolume), items[w].id.value, c.wiimOffset)
    requires final[l].volume == items[l].volume && final[l].offset == items[l].offset
    ensures Settled(final, c, true, items[l].volume.value, items[l].offset.value)
  {
    hide Settled, ResolvePair, SelectedIds;
    var a, b := items[l].id.value, items[w].id.value;
    var reset: Reset :| joined == ApplySelect(before, [a, b], reset);
    BothSelected(before, joined, final, l, w, a, b, reset);
    assert final[l].id == Some(a) && final[w].id == Some(b);
    SettledAt(final, items, c, l, w, true, items[l].volume.value, items[l].offset.value);
  }

  // --------------------------------------------------------------- the full reconcile

  /** What the full path has kept so far. */
  ghost predicate Spreading(c: Config, actor: Actor, items: seq<Output>, writes0: seq<Write>, writes: seq<Write>,
                            tone: seq<Output>) {
    && SameOutputs(tone, items) && SameOutputs(items, tone) && PairWrites(writes0, writes, actor, c)
    && (writes == writes0 ==> tone == items)
  }

  method SelectSpreading(world: World, actor: Actor, ids: seq<string>, ghost items: seq<Output>,
                         ghost writes0: seq<Write>)
    returns (r: Answer<()>)
    requires world.Valid() && ResolvePair(items, world.config).Got?
    requires var pair := ResolvePair(items, world.config).value; ids == [] || ids == [pair.0.id.value, pair.1.id.value]
    requires Spreading(world.config, actor, items, writes0, world.writes, world.tone)
    modifies world
    ensures world.Valid() && world.mode == old(world.mode) && world.calls == old(world.calls) + 1
    ensures Spreading(world.config, actor, items, writes0, world.writes, world.tone)
    ensures r.Raised? == world.replies(old(world.calls)).fails
    ensures world.replies(old(world.calls)).applies ==>
      world.tone == ApplySelect(old(world.tone), ids, world.replies(old(world.calls)).reset)
  {
    ghost var writes, tone, reset := world.writes, world.tone, world.replies(world.calls).reset;
    r := world.SetOutputs(actor, ids);
    MemberOfPair(tone, items, world.config);
    PairWritesPush(writes0, writes, actor, world.config, Select(actor, world.mode, ids, tone));
    SelectSame(tone, items, ids, reset);
  }

  method WriteLevels(world: World, actor: Actor, localId: string, wiimId: string, ghost items: seq<Output>,
                     ghost writes0: seq<Write>)
    returns (r: Answer<()>)
    requires world.Valid() && Spreading(world.config, actor, items, writes0, world.writes, world.tone)
    requires InPair(items, world.config, localId) && InPair(items, world.config, wiimId)
    modifies world
    ensures world.Valid() && world.mode == old(world.mode) && world.calls >= old(world.calls)
    ensures Spreading(world.config, actor, items, writes0, world.writes, world.tone)
    ensures world.Smooth(old(world.calls)) ==>
      && r.Got? && world.calls == old(world.calls) + 4
      && world.tone == Levelled(old(world.tone), world.config, localId, wiimId)
  {
    hide Spreading, InPair;
    var c := world.config;
    ghost var tone := world.tone;
    r := SpreadVolume(world, actor, localId, c.localVolume, items, writes0);
    if r.Raised? { return; }
    r := SpreadVolume(world, actor, wiimId, c.wiimVolume, items, writes0);
    if r.Raised? { return; }
    r := SpreadOffset(world, actor, localId, c.localOffset, items, writes0);
    if r.Raised? { return; }
    r := SpreadOffset(world, actor, wiimId, c.wiimOffset, items, writes0);
  }

  predicate InPair(items: seq<Output>, c: Config, id: string) {
    ResolvePair(items, c).Got?
    && (id == ResolvePair(items, c).value.0.id.value || id == ResolvePair(items, c).value.1.id.value)
  }

  lemma SpreadingLevel(c: Config, actor: Actor, items: seq<Output>, writes0: seq<Write>, writes: seq<Write>,
                       tone: seq<Output>, w: Write, next: seq<Output>)
    requires Spreading(c, actor, items, writes0, writes, tone)
    requires (w.Level? || w.Delay?) && w.actor == actor && w.items == tone && InPair(items, c, w.id)
    requires || next == tone
             || (w.Level? && next == ApplyVolume(tone, w.id, w.volume))
             || (w.Delay? && next == ApplyOffset(tone, w.id, w.ms))
    ensures Spreading(c, actor, items, writes0, writes + [w], next)
  {
    MemberOfPair(tone, items, c);
    LevelSame(tone, items, w, next);
    hide ResolvePair, PairMember, PairWrites, SameOutputs;
    PairWritesPush(writes0, writes, actor, c, w);
  }

  lemma LevelSame(tone: seq<Output>, items: seq<Output>, w: Write, next: seq<Output>)
    requires SameOutputs(tone, items) && SameOutputs(items, tone)
    requires || next == tone
             || (w.Level? && next == ApplyVolume(tone, w.id, w.volume))
             || (w.Delay? && next == ApplyOffset(tone, w.id, w.ms))
    ensures SameOutputs(next, items) && SameOutputs(items, next)
  {}

  method SpreadVolume(world: World, actor: Actor, id: string, volume: int, ghost items: seq<Output>,
                      ghost writes0: seq<Write>)
    returns (r: Answer<()>)
    requires world.Valid() && Spreading(world.config, actor, items, writes0, world.writes, world.tone)
    requires VOLUME_RANGE.0 <= volume <= VOLUME_RANGE.1 && InPair(items, world.config, id)
    modifies world
    ensures world.Valid() && world.mode == old(world.mode) && world.calls >= old(world.calls)
    ensures Spreading(world.config, actor, items, writes0, world.writes, world.tone)
    ensures world.Smooth(old(world.calls)) ==>
      r.Got? && world.calls == old(world.calls) + 1 && world.tone == ApplyVolume(old(world.tone), id, volume)
  {
    hide Spreading, InPair;
    ghost var writes, tone, w := world.writes, world.tone, Level(actor, world.mode, id, volume, world.tone);
    r := world.SetVolume(actor, id, volume);
    SpreadingLevel(world.config, actor, items, writes0, writes, tone, w, world.tone);
  }

  method SpreadOffset(world: World, actor: Actor, id: string, ms: int, ghost items: seq<Output>,
                      ghost writes0: seq<Write>)
    returns (r: Answer<()>)
    requires world.Valid() && Spreading(world.config, actor, items, writes0, world.writes, world.tone)
    requires OFFSET_RANGE_MS.0 <= ms <= OFFSET_RANGE_MS.1 && InPair(items, world.config, id)
    modifies world
    ensures world.Valid() && world.mode == old(world.mode) && world.calls >= old(world.calls)
    ensures Spreading(world.config, actor, items, writes0, world.writes, world.tone)
    ensures world.Smooth(old(world.calls)) ==>
      r.Got? && world.calls == old(world.calls) + 1 && world.tone == ApplyOffset(old(world.tone), id, ms)
  {
    hide Spreading, InPair;
    ghost var writes, tone, w := world.writes, world.tone, Delay(actor, world.mode, id, ms, world.tone);
    r := world.SetOffset(actor, id, ms);
    SpreadingLevel(world.config, actor, items, writes0, writes, tone, w, world.tone);
  }

  function Levelled(items: seq<Output>, c: Config, localId: string, wiimId: string): seq<Output> {
    ApplyOffset(ApplyOffset(ApplyVolume(ApplyVolume(items, localId, c.localVolume), wiimId, c.wiimVolume),
                            localId, c.localOffset), wiimId, c.wiimOffset)
  }

  /** Selecting would leave this output at its configured levels. */
  predicate Harmless(reset: Reset, id: string, volume: int, offset: int) {
    reset(id).None? || reset(id) == Some((volume, offset))
  }

  /** Deselecting everything, restoring all levels, then selecting the pair. */
  method FullReconcile(world: World, actor: Actor, items: seq<Output>, local: Output, wiim: Output, activate: bool,
                       ghost l: int, ghost w: int)
    returns (r: Answer<()>)
    requires world.Valid() && items == world.tone && ResolvePair(items, world.config) == Got((local, wiim))
    requires UniqueAt(items, world.config.localName, LOCAL_TYPE, l) && items[l] == local
    requires UniqueAt(items, world.config.wiimName, WIIM_TYPE, w) && items[w] == wiim
    modifies world
    ensures world.Valid() && world.mode == old(world.mode) && world.calls >= old(world.calls)
    ensures Spreading(world.config, actor, items, old(world.writes), world.writes, world.tone)
    ensures r.Got? ==> Settled(world.tone, world.config, activate, world.config.localVolume, world.config.localOffset)
    ensures world.Smooth(old(world.calls)) ==>
      var c, reset := world.config, world.replies(old(world.calls) + 5).reset;
      (r.Got? <==> (activate ==> Harmless(reset, local.id.value, c.localVolume, c.localOffset)
                                 && Harmless(reset, wiim.id.value, c.wiimVolume, c.wiimOffset)))
  {
    hide Settled, Levelled, UnderCurrent, ModeAfter;
    var c := world.config;
    var localId, wiimId := local.id.value, wiim.id.value;
    ghost var writes0 := world.writes;
    r := SelectSpreading(world, actor, [], items, writes0);
    if r.Raised? { return; }
    ghost var quiet := world.tone;
    r := WriteLevels(world, actor, localId, wiimId, items, writes0);
    if r.Raised? { return; }
    ghost var level := world.tone;
    ghost var reset := world.replies(world.calls).reset;
    if activate {
      r := SelectSpreading(world, actor, [localId, wiimId], items, writes0);
      if r.Raised? { return; }
    }
    var refreshed := world.Outputs();
    if refreshed.Raised? { return Raised; }
    r := if Settled(refreshed.value, c, activate, c.localVolume, c.localOffset) then Got(()) else Raised;
    if world.Smooth(old(world.calls)) {
      FullOutcome(items, quiet, level, world.tone, c, l, w, activate, world.replies(old(world.calls)).reset, reset);
    }
  }

  /** What the verification pass of the full path finds when every write took effect. */
  lemma FullOutcome(items: seq<Output>, quiet: seq<Output>, level: seq<Output>, final: seq<Output>, c: Config,
                    l: int, w: int, activate: bool, first: Reset, reset: Reset)
    requires ResolvePair(items, c).Got?
    requires UniqueAt(items, c.localName, LOCAL_TYPE, l) && UniqueAt(items, c.wiimName, WIIM_TYPE, w)
    requires items[l].id != items[w].id
    requires quiet == ApplySelect(items, [], first)
    requires level == Levelled(quiet, c, items[l].id.value, items[w].id.value)
    requires final == if activate then ApplySelect(level, [items[l].id.value, items[w].id.value], reset) else level
    ensures Settled(final, c, activate, c.localVolume, c.localOffset) <==>
      (activate ==> Harmless(reset, items[l].id.value, c.localVolume, c.localOffset)
                    && Harmless(reset, items[w].id.value, c.wiimVolume, c.wiimOffset))
  {
    hide Settled, ResolvePair, SelectedIds;
    var a, b := items[l].id.value, items[w].id.value;
    LevelledAt(items, quiet, level, c, l, w, first);
    hide Levelled, UniqueAt;
    if activate {
      BothSelected(level, final, final, l, w, a, b, reset);
    } else {
      NothingSelected(final);
    }
    SettledAt(final, items, c, l, w, activate, c.localVolume, c.localOffset);
  }

  /** Everything is deselected and at its configured levels before the pair is selected. */
  lemma LevelledAt(items: seq<Output>, quiet: seq<Output>, level: seq<Output>, c: Config, l: int, w: int, first: Reset)
    requires 0 <= l < |items| && 0 <= w < |items| && items[l].id.Some? && items[w].id.Some?
    requires items[l].id != items[w].id
    requires quiet == ApplySelect(items, [], first)
    requires level == Levelled(quiet, c, items[l].id.value, items[w].id.value)
    ensures SameOutputs(items, level) && forall i :: 0 <= i < |items| ==> !level[i].selected
    ensures level[l].volume == Some(c.localVolume) && level[l].offset == Some(c.localOffset)
    ensures level[w].volume == Some(c.wiimVolume) && level[w].offset == Some(c.wiimOffset)
  {}

  lemma {:induction false} NothingSelected(items: seq<Output>)
    requires forall i :: 0 <= i < |items| ==> !items[i].selected
    ensures SelectedIds(items) == Got({})
  {
    if items != [] { NothingSelected(items[1..]); }
  }

  // ---------------------------------------------------------------------- the whole

  /** The join that keeps the PC connected is the one taken. */
  predicate KeepsPc(items: seq<Output>, c: Config, activate: bool, preserveLocal: bool)
    requires ResolvePair(items, c).Got? && SelectedIds(items).Got?
  {
    preserveLocal && activate && ResolvePair(items, c).value.0.id.value in SelectedIds(items).value
  }

  /** When the PC output is connected at the start, it stays connected and at its levels in
      every state in between, and no write sets its level. */
  ghost predicate PcStays(items: seq<Output>, c: Config, visited0: seq<seq<Output>>, visited: seq<seq<Output>>,
                          writes0: seq<Write>, writes: seq<Write>) {
    forall l :: UniqueAt(items, c.localName, LOCAL_TYPE, l) && items[l].selected ==>
      KeptSince(visited0, visited, items, l) && LevelsUntouched(writes0, writes, items[l].id.value)
  }

  /** What a successful reconcile has read back. */
  predicate ReadBack(items: seq<Output>, tone: seq<Output>, c: Config, activate: bool, preserveLocal: bool) {
    && ResolvePair(items, c).Got? && SelectedIds(items).Got?
    && var local := ResolvePair(items, c).value.0;
       if KeepsPc(items, c, activate, preserveLocal)
       then local.volume.Some? && local.offset.Some? && Settled(tone, c, true, local.volume.value, local.offset.value)
       else Settled(tone, c, activate, c.localVolume, c.localOffset)
  }

  /** When a reconcile without failures succeeds: the join that keeps the PC whatever the
      selection resets, the full path exactly if the selection resets no level. */
  predicate SucceedsAsPlanned(items: seq<Output>, c: Config, activate: bool, preserveLocal: bool, reset: Reset,
                              r: Answer<()>) {
    ResolvePair(items, c).Got? && SelectedIds(items).Got? ==>
      var pair := ResolvePair(items, c).value;
      if KeepsPc(items, c, activate, preserveLocal) then
        (&& pair.0.volume.Some? && pair.0.offset.Some? && pair.0.selected
         && SelectedIds(items).value <= {pair.0.id.value, pair.1.id.value}) ==> r.Got?
      else
        r.Got? <==> (activate ==> Harmless(reset, pair.0.id.value, c.localVolume, c.localOffset)
                                  && Harmless(reset, pair.1.id.value, c.wiimVolume, c.wiimOffset))
  }

  lemma SelectedIsListed(items: seq<Output>, l: int)
    requires 0 <= l < |items| && items[l].selected && items[l].id.Some? && SelectedIds(items).Got?
    ensures items[l].id.value in SelectedIds(items).value
  {}

  lemma JoinStays(c: Config, actor: Actor, items: seq<Output>, l: int, writes0: seq<Write>, visited0: seq<seq<Output>>,
                  writes: seq<Write>, visited: seq<seq<Output>>, tone: seq<Output>)
    requires UniqueAt(items, c.localName, LOCAL_TYPE, l)
    requires Joining(c, actor, items, l, writes0, visited0, writes, visited, tone)
    ensures PcStays(items, c, visited0, visited, writes0, writes)
    ensures SameOutputs(tone, items) && PairWrites(writes0, writes, actor, c) && (writes == writes0 ==> tone == items)
  {
    forall k | UniqueAt(items, c.localName, LOCAL_TYPE, k) ensures k == l {}
  }

  lemma NoPcToKeep(items: seq<Output>, c: Config, visited0: seq<seq<Output>>, visited: seq<seq<Output>>,
                   writes0: seq<Write>, writes: seq<Write>)
    requires ResolvePair(items, c).Got? && SelectedIds(items).Got? && !KeepsPc(items, c, true, true)
    ensures PcStays(items, c, visited0, visited, writes0, writes)
  {
    var l, w := PairAt(items, c);
    forall k | UniqueAt(items, c.localName, LOCAL_TYPE, k) && items[k].selected ensures false {
      SelectedIsListed(items, k);
    }
  }

  /** The path taken once everything is resolved. */
  method ReconcileResolved(world: World, actor: Actor, items: seq<Output>, local: Output, wiim: Output,
                           activate: bool, preserveLocal: bool)
    returns (r: Answer<()>)
    requires world.Valid() && items == world.tone && ResolvePair(items, world.config) == Got((local, wiim))
    requires SelectedIds(items).Got?
    modifies world
    ensures world.Valid() && world.mode == old(world.mode) && world.calls >= old(world.calls)
    ensures SameOutputs(world.tone, items) && PairWrites(old(world.writes), world.writes, actor, world.config)
    ensures world.writes == old(world.writes) ==> world.tone == items
    ensures preserveLocal && activate ==>
      PcStays(items, world.config, old(world.visited), world.visited, old(world.writes), world.writes)
    ensures r.Got? ==> ReadBack(items, world.tone, world.config, activate, preserveLocal)
    ensures world.Smooth(old(world.calls)) ==>
      SucceedsAsPlanned(items, world.config, activate, preserveLocal, world.replies(old(world.calls) + 5).reset, r)
  {
    hide Settled, ResolvePair, SelectedIds, PcStays, PairWrites, SameOutputs, UniqueAt, Harmless;
    var c := world.config;
    ghost var l, w := PairAt(items, c);
    ghost var writes0, visited0 := world.writes, world.visited;
    if preserveLocal && activate && local.id.value in SelectedIds(items).value {
      hide Joining;
      r := RejoinWiim(world, actor, items, local, wiim, l, w);
      JoinStays(c, actor, items, l, writes0, visited0, world.writes, world.visited, world.tone);
    } else {
      r := FullReconcile(world, actor, items, local, wiim, activate, l, w);
      if preserveLocal && activate { NoPcToKeep(items, c, visited0, world.visited, writes0, world.writes); }
    }
  }

  lemma NothingSent(items: seq<Output>, c: Config, actor: Actor, visited: seq<seq<Output>>, writes: seq<Write>)
    ensures PcStays(items, c, visited, visited, writes, writes) && PairWrites(writes, writes, actor, c)
    ensures SameOutputs(items, items)
  {}

  /** bridge.reconcile_once. */
  method ReconcileOnce(world: World, actor: Actor, activate: bool, preserveLocal: bool) returns (r: Answer<()>)
    requires world.Valid()
    modifies world
    ensures world.Valid() && world.mode == old(world.mode) && world.calls >= old(world.calls)
    ensures SameOutputs(world.tone, old(world.tone)) && PairWrites(old(world.writes), world.writes, actor, world.config)
    ensures world.writes == old(world.writes) ==> world.tone == old(world.tone)
    ensures preserveLocal && activate ==>
      PcStays(old(world.tone), world.config, old(world.visited), world.visited, old(world.writes), world.writes)
    ensures r.Got? ==> ReadBack(old(world.tone), world.tone, world.config, activate, preserveLocal)
    ensures world.Smooth(old(world.calls)) ==>
      SucceedsAsPlanned(old(world.tone), world.config, activate, preserveLocal,
        world.replies(old(world.calls) + 7).reset, r)
  {
    hide PcStays, PairWrites, SameOutputs, ReadBack, ResolvePair, SelectedIds, KeepsPc, Harmless;
    NothingSent(world.tone, world.config, actor, world.visited, world.writes);
    var healthy := world.Ask();       // validate_wiim_group
    if healthy.Raised? { return Raised; }
    var read := world.Outputs();
    if read.Raised? { return Raised; }
    var items := read.value;
    var resolved := ResolvePair(items, world.config);
    if resolved.Raised? || SelectedIds(items).Raised? { return Raised; }
    r := ReconcileResolved(world, actor, items, resolved.value.0, resolved.value.1, activate, preserveLocal);
  }
}
