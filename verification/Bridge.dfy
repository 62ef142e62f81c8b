/** Output control under explicit user intent: OwnTone, the durable mode and the lock as the
    shared world, and every locked section of the command line and of the supervisor. */
module Bridge {
  import opened Prelude
  import opened Findings
  import opened OwnTone

  datatype Actor = Cli | Supervising

  /** A request sent to OwnTone, with the mode in force and OwnTone's outputs at that moment; or
      a change of the durable mode. */
  datatype Write =
    | Select(actor: Actor, under: Mode, ids: seq<string>, items: seq<Output>)
    | Level(actor: Actor, under: Mode, id: string, volume: int, items: seq<Output>)
    | Delay(actor: Actor, under: Mode, id: string, ms: int, items: seq<Output>)
    | Policy(mode: Mode)

  /** The outputs that a request names. */
  function Named(w: Write): seq<string> {
    match w
    case Select(_, _, ids, _) => ids
    case Level(_, _, id, _, _) => [id]
    case Delay(_, _, id, _, _) => [id]
    case Policy(_) => []
  }

  /** How the environment treats one call: it may fail, whether or not a write took effect;
      it may answer a yes-no question; it may reset levels of newly selected outputs. */
  datatype Reply = Reply(fails: bool, applies: bool, yes: bool, reset: Reset)

  // ------------------------------------------------------------------ what is allowed

  function LocalId(items: seq<Output>, c: Config): Option<string> {
    match LocalOutput(items, c) case Got(o) => o.id case Raised => None
  }

  function WiimId(items: seq<Output>, c: Config): Option<string> {
    match WiimOutput(items, c) case Got(o) => o.id case Raised => None
  }

  /** Members of the configured pair, as OwnTone names them now. An ambiguous WiiM name
      still stands for its own outputs. */
  predicate PairMember(items: seq<Output>, c: Config, id: string) {
    LocalId(items, c) == Some(id) || WiimId(items, c) == Some(id)
  }

  /** A request the supervisor may send under the mode in force: in `auto` it concerns members
      of the pair only, under `local` and `stopped` it is the selection to hold. */
  predicate Permitted(w: Write, c: Config) {
    !w.Policy? && w.actor == Supervising ==>
      match w.under
      case Auto => forall id :: id in Named(w) ==> PairMember(w.items, c, id)
      case Local => w.Select? && LocalId(w.items, c).Some? && w.ids == [LocalId(w.items, c).value]
      case Stopped => w.Select? && w.ids == []
      case Manual => false
  }

  ghost predicate AllPermitted(writes: seq<Write>, c: Config) {
    forall i :: 0 <= i < |writes| ==> Permitted(writes[i], c)
  }

  /** The mode after these writes. */
  function ModeAfter(initial: Mode, writes: seq<Write>): Mode {
    if writes == [] then initial
    else
      var last := writes[|writes| - 1];
      if last.Policy? then last.mode else ModeAfter(initial, writes[..|writes| - 1])
  }

  /** Every request was sent under the mode last set before it. */
  ghost predicate UnderCurrent(initial: Mode, writes: seq<Write>) {
    forall i :: 0 <= i < |writes| && !writes[i].Policy? ==> writes[i].under == ModeAfter(initial, writes[..i])
  }

  /** A locked section as it begins: its first call, and OwnTone's outputs then. */
  datatype Locked = Locked(call: nat, tone: seq<Output>)

  /** The lock all sections wait for. */
  class OutputLock {
    ghost var sections: seq<Locked>

    constructor ()
      ensures sections == []
    {
      sections := [];
    }
  }

  class World {
    const lock: OutputLock
    const config: Config
    const replies: nat -> Reply
    ghost const initial: Mode
    var calls: nat
    var tone: seq<Output>
    var mode: Mode
    var writes: seq<Write>
    /** OwnTone's states, from the first to the present one. */
    ghost var visited: seq<seq<Output>>

    ghost predicate Valid()
      reads this
    {
      && ValidConfig(config) && mode == ModeAfter(initial, writes) && UnderCurrent(initial, writes)
      && visited != [] && visited[|visited| - 1] == tone
    }

    /** From the given call on, nothing fails and every write takes effect. */
    ghost predicate Smooth(from: nat)
    {
      forall k: nat :: k >= from ==> !replies(k).fails && replies(k).applies
    }

    constructor (config: Config, replies: nat -> Reply, tone: seq<Output>, mode: Mode)
      requires ValidConfig(config)
      ensures Valid() && this.config == config && this.replies == replies && this.tone == tone
      ensures this.mode == mode && initial == mode && writes == [] && visited == [tone] && calls == 0
      ensures fresh(lock)
    {
      lock := new OutputLock();
      this.config := config;
      this.replies := replies;
      this.tone := tone;
      this.mode := mode;
      initial := mode;
      writes, visited, calls := [], [tone], 0;
    }

    /** A call that only observes: it may fail, or answer yes or no. */
    method Ask() returns (r: Answer<bool>)
      requires Valid()
      modifies `calls
      ensures Valid() && calls == old(calls) + 1
      ensures r == if replies(old(calls)).fails then Raised else Got(replies(old(calls)).yes)
    {
      r := if replies(calls).fails then Raised else Got(replies(calls).yes);
      calls := calls + 1;
    }

    method Outputs() returns (r: Answer<seq<Output>>)
      requires Valid()
      modifies `calls
      ensures Valid() && calls == old(calls) + 1
      ensures r == if replies(old(calls)).fails then Raised else Got(tone)
    {
      r := if replies(calls).fails then Raised else Got(tone);
      calls := calls + 1;
    }

    /** mode(): the policy file may be unreadable. */
    method ReadMode() returns (r: Answer<Mode>)
      requires Valid()
      modifies `calls
      ensures Valid() && calls == old(calls) + 1
      ensures r == if replies(old(calls)).fails then Raised else Got(mode)
    {
      r := if replies(calls).fails then Raised else Got(mode);
      calls := calls + 1;
    }

    /** set_mode: a normal return means the mode is durable; a failure may come after that. */
    method SetMode(to: Mode) returns (r: Answer<()>)
      requires Valid()
      modifies `calls, `mode, `writes
      ensures Valid() && calls == old(calls) + 1
      ensures r.Raised? == replies(old(calls)).fails
      ensures if replies(old(calls)).applies || !replies(old(calls)).fails
        then mode == to && writes == old(writes) + [Policy(to)]
              else mode == old(mode) && writes == old(writes)
    {
      hide UnderCurrent, ModeAfter, ApplySelect, ApplyVolume, ApplyOffset;
      var reply := replies(calls);
      calls := calls + 1;
      if reply.applies || !reply.fails {
        mode := to;
        PolicyPush(initial, writes, Policy(to));
        writes := writes + [Policy(to)];
      }
      return if reply.fails then Raised else Got(());
    }

    method SetOutputs(actor: Actor, ids: seq<string>) returns (r: Answer<()>)
      requires Valid()
      modifies `calls, `tone, `writes, `visited
      ensures Valid() && calls == old(calls) + 1
      ensures r.Raised? == replies(old(calls)).fails
      ensures writes == old(writes) + [Select(actor, mode, ids, old(tone))]
      ensures tone == if replies(old(calls)).applies then ApplySelect(old(tone), ids, replies(old(calls)).reset)
        else old(tone)
      ensures visited == old(visited) + [tone]
    {
      hide UnderCurrent, ModeAfter, ApplySelect, ApplyVolume, ApplyOffset;
      var reply := replies(calls);
      calls := calls + 1;
      PolicyPush(initial, writes, Select(actor, mode, ids, tone));
      writes := writes + [Select(actor, mode, ids, tone)];
      if reply.applies { tone := ApplySelect(tone, ids, reply.reset); }
      visited := visited + [tone];
      return if reply.fails then Raised else Got(());
    }

    /** The user changes outputs in OwnTone's own interface; no write of the bridge's. */
    method ChangedOutside(next: seq<Output>)
      requires Valid()
      modifies `tone, `visited
      ensures Valid() && tone == next && visited == old(visited) + [next]
    {
      tone := next;
      visited := visited + [next];
    }

    method SetVolume(actor: Actor, id: string, volume: int) returns (r: Answer<()>)
      requires Valid()
      modifies `calls, `tone, `writes, `visited
      ensures Valid() && calls <= old(calls) + 1
      ensures if VOLUME_RANGE.0 <= volume <= VOLUME_RANGE.1
              then calls == old(calls) + 1 && r.Raised? == replies(old(calls)).fails
                   && writes == old(writes) + [Level(actor, mode, id, volume, old(tone))]
                   && tone == (if replies(old(calls)).applies then ApplyVolume(old(tone), id, volume) else old(tone))
                   && visited == old(visited) + [tone]
              else r.Raised? && calls == old(calls) && tone == old(tone)
                   && writes == old(writes) && visited == old(visited)
    {
      hide UnderCurrent, ModeAfter, ApplySelect, ApplyVolume, ApplyOffset;
      if volume < VOLUME_RANGE.0 || volume > VOLUME_RANGE.1 { return Raised; }
      var reply := replies(calls);
      calls := calls + 1;
      PolicyPush(initial, writes, Level(actor, mode, id, volume, tone));
      writes := writes + [Level(actor, mode, id, volume, tone)];
      if reply.applies { tone := ApplyVolume(tone, id, volume); }
      visited := visited + [tone];
      return if reply.fails then Raised else Got(());
    }

    method SetOffset(actor: Actor, id: string, ms: int) returns (r: Answer<()>)
      requires Valid()
      modifies `calls, `tone, `writes, `visited
      ensures Valid() && calls <= old(calls) + 1
      ensures if OFFSET_RANGE_MS.0 <= ms <= OFFSET_RANGE_MS.1
              then calls == old(calls) + 1 && r.Raised? == replies(old(calls)).fails
                   && writes == old(writes) + [Delay(actor, mode, id, ms, old(tone))]
                   && tone == (if replies(old(calls)).applies then ApplyOffset(old(tone), id, ms) else old(tone))
                   && visited == old(visited) + [tone]
              else r.Raised? && calls == old(calls) && tone == old(tone)
                   && writes == old(writes) && visited == old(visited)
    {
      hide UnderCurrent, ModeAfter, ApplySelect, ApplyVolume, ApplyOffset;
      if ms < OFFSET_RANGE_MS.0 || ms > OFFSET_RANGE_MS.1 { return Raised; }
      var reply := replies(calls);
      calls := calls + 1;
      PolicyPush(initial, writes, Delay(actor, mode, id, ms, tone));
      writes := writes + [Delay(actor, mode, id, ms, tone)];
      if reply.applies { tone := ApplyOffset(tone, id, ms); }
      visited := visited + [tone];
      return if reply.fails then Raised else Got(());
    }
  }

  lemma PolicyPush(initial: Mode, writes: seq<Write>, w: Write)
    requires UnderCurrent(initial, writes)
    requires !w.Policy? ==> w.under == ModeAfter(initial, writes)
    ensures UnderCurrent(initial, writes + [w])
    ensures ModeAfter(initial, writes + [w]) == if w.Policy? then w.mode else ModeAfter(initial, writes)
  {
    var all := writes + [w];
    assert all[..|all| - 1] == writes;
    forall i | 0 <= i < |all| && !all[i].Policy? ensures all[i].under == ModeAfter(initial, all[..i]) {
      if i < |writes| { assert all[..i] == writes[..i]; } else { assert all[..i] == writes; }
    }
  }
}
