/** What the answers to reads, openings and writes make of every block of a relay's run. */
module RelayRuns {
  import opened Prelude
  import opened Bytes
  import opened Relay

  /** The relay before event j of round i. */
  function Before(rounds: seq<seq<Ready>>, i: nat, j: nat): State
    requires i < |rounds| && j <= |rounds[i]|
  {
    var s := Relayed(rounds[..i]);
    RoundFrom(s, Watched(s), rounds[i][..j])
  }

  /** What is there to flush at an event: after a read, also the blocks just cut. */
  function ToFlush(s: State, ready: Ready): Outcome {
    if ready.CaptureReady? && ready.read.Data? then Reading(s.o, ready.read.bytes) else s.o
  }

  /** The event at which the block got its fate explains it: nobody read when it opened the FIFO,
      a write broke or took the whole block, or what it read did not fit. */
  predicate Because(s: State, ready: Ready, p: nat, f: Fate) {
    var o := ToFlush(s, ready);
    match f
    case NoReader => !s.open && ready.io.open == NobodyReads
    case BrokenPipe => exists k: nat :: |o.fates| + k <= p && Writing(ready.io, k) == Broken
    case Delivered(newest) =>
      newest == |o.cut| && |o.fates| <= p && Writing(ready.io, p - |o.fates|) == Wrote(BLOCK_SIZE)
    case Overrun =>
      && ready.CaptureReady? && ready.read.Data?
      && BLOCK_SIZE * |s.o.buffer| + |s.o.pending| + |ready.read.bytes| > MAX_BUFFER_BYTES
  }

  ghost predicate Explained(s: State, t: State, ready: Ready) {
    && s.o.fates <= t.o.fates && |t.o.buffer| <= MAX_BLOCKS
    && forall p :: |s.o.fates| <= p < |t.o.fates| ==> Because(s, ready, p, t.o.fates[p])
  }

  lemma {:induction false} CuttingOverruns(o: Outcome)
    requires |o.buffer| <= MAX_BLOCKS
    ensures var t := Cutting(o);
      && o.fates <= t.fates && |t.buffer| <= MAX_BLOCKS && t.input == o.input
      && (forall p :: |o.fates| <= p < |t.fates| ==> t.fates[p] == Overrun)
      && (BLOCK_SIZE * |o.buffer| + |o.pending| <= MAX_BUFFER_BYTES ==>
          t.fates == o.fates && t.overruns == o.overruns && t.sent == o.sent)
      && |t.pending| < BLOCK_SIZE
    decreases |o.pending|
  {
    if |o.pending| >= BLOCK_SIZE { CuttingOverruns(Appending(o)); }
  }

  lemma FlushExplained(s: State, ready: Ready, o: Outcome)
    requires s.exit.None? && o == ToFlush(s, ready) && |o.buffer| <= MAX_BLOCKS
    ensures var t := Flushing(s.(o := o), ready.io);
      && o.fates <= t.o.fates && |t.o.buffer| <= MAX_BLOCKS
      && forall p :: |o.fates| <= p < |t.o.fates| ==> Because(s, ready, p, t.o.fates[p])
  {
    hide Flushing, ToFlush;
    FlushingIs(s.(o := o), ready.io);
    if o.buffer != [] && (s.open || ready.io.open == Opened) {
      var n, t := Wholes(ready.io, 0, |o.buffer|), Flushing(s.(o := o), ready.io);
      forall p | |o.fates| <= p < |t.o.fates| ensures Because(s, ready, p, t.o.fates[p]) {
        if p < |o.fates| + n {
          assert t.o.fates[p] == Delivered(|o.cut|);
        } else {
          assert t.o.fates[p] == BrokenPipe && Writing(ready.io, n) == Broken;
        }
      }
    }
  }

  lemma EventExplained(s: State, watched: bool, ready: Ready)
    requires |s.o.buffer| <= MAX_BLOCKS
    ensures Explained(s, Handled(s, watched, ready), ready)
  {
    hide Flushing, Cutting;
    if s.exit.None? {
      if ready.CaptureReady? && ready.read.Data? && ready.read.bytes != [] {
        CuttingOverruns(s.o.(input := s.o.input + ready.read.bytes, pending := s.o.pending + ready.read.bytes));
        FlushExplained(s, ready, ToFlush(s, ready));
      } else if ready.WriterReady? && watched {
        FlushExplained(s, ready, s.o);
      }
    }
  }

  /** Block p got its fate at event j of a round. */
  ghost predicate FatedIn(s: State, watched: bool, round: seq<Ready>, j: nat, p: nat) {
    && j < |round|
    && var before, after := RoundFrom(s, watched, round[..j]), RoundFrom(s, watched, round[..j + 1]);
       && |before.o.fates| <= p < |after.o.fates|
       && Because(before, round[j], p, after.o.fates[p])
       && after.o.fates <= RoundFrom(s, watched, round).o.fates
  }

  lemma {:induction false} RoundGrows(s: State, watched: bool, round: seq<Ready>)
    requires |s.o.buffer| <= MAX_BLOCKS
    ensures var t := RoundFrom(s, watched, round); s.o.fates <= t.o.fates && |t.o.buffer| <= MAX_BLOCKS
  {
    hide Handled, Because;
    if round != [] {
      var n := |round| - 1;
      RoundGrows(s, watched, round[..n]);
      EventExplained(RoundFrom(s, watched, round[..n]), watched, round[n]);
    }
  }

  lemma {:induction false} RoundExplained(s: State, watched: bool, round: seq<Ready>, p: nat) returns (j: nat)
    requires |s.o.buffer| <= MAX_BLOCKS && |s.o.fates| <= p < |RoundFrom(s, watched, round).o.fates|
    ensures FatedIn(s, watched, round, j, p)
  {
    hide Handled, Because;
    assert round != [];
    var n := |round| - 1;
    var front, u := round[..n], RoundFrom(s, watched, round[..n]);
    RoundGrows(s, watched, front);
    EventExplained(u, watched, round[n]);
    assert round[..n + 1] == round;
    if p < |u.o.fates| {
      j := RoundExplained(s, watched, front, p);
      assert front[..j] == round[..j] && front[..j + 1] == round[..j + 1];
    } else {
      j := n;
    }
  }

  /** Block p got its fate at event j of round i. */
  ghost predicate FatedAt(rounds: seq<seq<Ready>>, i: nat, j: nat, p: nat) {
    && i < |rounds| && j < |rounds[i]|
    && |Before(rounds, i, j).o.fates| <= p < |Before(rounds, i, j + 1).o.fates|
    && Before(rounds, i, j + 1).o.fates <= Relayed(rounds).o.fates
    && Because(Before(rounds, i, j), rounds[i][j], p, Relayed(rounds).o.fates[p])
  }

  /** Every block's fate is the one that the answers at its event gave it: dropped for want of a
      reader only where that event's opening found nobody, dropped with the pipe only where a
      write broke, delivered only by a write that took it whole, overrun only by a read that did
      not fit. */
  lemma {:induction false} FatesAreCaused(rounds: seq<seq<Ready>>, p: nat) returns (i: nat, j: nat)
    requires p < |Relayed(rounds).o.fates|
    ensures FatedAt(rounds, i, j, p)
  {
    hide RoundFrom, Because;
    assert rounds != [];
    var n := |rounds| - 1;
    var front, u := rounds[..n], Relayed(rounds[..n]);
    BufferIsBounded(front);
    RoundGrows(u, Watched(u), rounds[n]);
    if p < |u.o.fates| {
      i, j := FatesAreCaused(front, p);
      assert front[..i] == rounds[..i] && front[i] == rounds[i];
      assert Before(front, i, j) == Before(rounds, i, j) && Before(front, i, j + 1) == Before(rounds, i, j + 1);
    } else {
      j := RoundExplained(u, Watched(u), rounds[n], p);
      i := n;
      assert Before(rounds, n, j) == RoundFrom(u, Watched(u), rounds[n][..j]);
      assert Before(rounds, n, j + 1) == RoundFrom(u, Watched(u), rounds[n][..j + 1]);
    }
  }

  lemma {:induction false} BufferIsBounded(rounds: seq<seq<Ready>>)
    ensures |Relayed(rounds).o.buffer| <= MAX_BLOCKS
  {
    hide RoundFrom;
    if rounds != [] {
      var u := Relayed(rounds[..|rounds| - 1]);
      BufferIsBounded(rounds[..|rounds| - 1]);
      RoundGrows(u, Watched(u), rounds[|rounds| - 1]);
    }
  }

  // ------------------------------------------------------------------ what is still buffered

  /** The event's flush stopped at a write that would block, and left this buffer. */
  predicate Blocks(s: State, ready: Ready, buffer: seq<Block>) {
    var o := ToFlush(s, ready);
    var n := Wholes(ready.io, 0, |o.buffer|);
    n < |o.buffer| && Writing(ready.io, n) == WouldBlock && buffer == o.buffer[n..]
  }

  lemma EventBlocks(s: State, watched: bool, ready: Ready)
    ensures var t := Handled(s, watched, ready);
      t.exit.None? && t.o.buffer != [] ==> t.o == s.o || Blocks(s, ready, t.o.buffer)
  {
    hide Flushing, Cutting, Wholes;
    if s.exit.None? { FlushingIs(s.(o := ToFlush(s, ready)), ready.io); }
  }

  lemma {:induction false} RoundBlocks(s: State, watched: bool, round: seq<Ready>)
    ensures var t := RoundFrom(s, watched, round);
      t.exit.None? && t.o.buffer != [] ==>
        || t.o == s.o
        || exists j :: 0 <= j < |round| && Blocks(RoundFrom(s, watched, round[..j]), round[j], t.o.buffer)
    ensures s.exit.Some? ==> RoundFrom(s, watched, round) == s
  {
    hide Handled, Blocks;
    if round != [] {
      var n := |round| - 1;
      var front := round[..n];
      RoundBlocks(s, watched, front);
      var u, t := RoundFrom(s, watched, front), RoundFrom(s, watched, round);
      EventBlocks(u, watched, round[n]);
      if u.exit.Some? { EndedEvent(u, watched, round[n]); }
      if t.exit.None? && t.o.buffer != [] && t.o != s.o && !Blocks(u, round[n], t.o.buffer) {
        var j :| 0 <= j < |front| && Blocks(RoundFrom(s, watched, front[..j]), front[j], t.o.buffer);
        assert front[..j] == round[..j] && front[j] == round[j];
      }
    }
  }

  /** While the loop runs, blocks are buffered only behind a write that would have blocked. */
  lemma {:induction false} BufferedBehindABlock(rounds: seq<seq<Ready>>)
    requires Relayed(rounds).exit.None? && Relayed(rounds).o.buffer != []
    ensures exists i, j :: 0 <= i < |rounds| && 0 <= j < |rounds[i]|
                           && Blocks(Before(rounds, i, j), rounds[i][j], Relayed(rounds).o.buffer)
  {
    hide RoundFrom, Blocks;
    var n := |rounds| - 1;
    var front := rounds[..n];
    var u, t := Relayed(front), Relayed(rounds);
    RoundBlocks(u, Watched(u), rounds[n]);
    if j :| 0 <= j < |rounds[n]| && Blocks(RoundFrom(u, Watched(u), rounds[n][..j]), rounds[n][j], t.o.buffer) {
      assert Before(rounds, n, j) == RoundFrom(u, Watched(u), rounds[n][..j]);
    } else {
      BufferedBehindABlock(front);
      var i, j :| 0 <= i < |front| && 0 <= j < |front[i]| && Blocks(Before(front, i, j), front[i][j], t.o.buffer);
      assert front[..i] == rounds[..i] && front[i] == rounds[i];
      assert Before(front, i, j) == Before(rounds, i, j);
    }
  }

  // --------------------------------------------------------------- a reader that keeps up

  const READ_SIZE := 65536

  /** The FIFO opens, and every write takes its block whole. */
  ghost predicate Willing(ready: Ready) {
    && ready.io.open == Opened && (forall k: nat :: k < MAX_BLOCKS ==> Writing(ready.io, k) == Wrote(BLOCK_SIZE))
    && (ready.CaptureReady? && ready.read.Data? ==> |ready.read.bytes| <= READ_SIZE)
  }

  ghost predicate KeepsUp(s: State) {
    && s.o.sent == s.o.cut && s.o.buffer == [] && s.o.overruns == 0 && |s.o.pending| < BLOCK_SIZE
    && (forall p :: 0 <= p < |s.o.fates| ==> s.o.fates[p].Delivered?)
  }

  lemma {:induction false} CuttingGathers(o: Outcome)
    requires BLOCK_SIZE * |o.buffer| + |o.pending| <= MAX_BUFFER_BYTES && o.sent + o.buffer == o.cut
    ensures var t := Cutting(o); t.sent + t.buffer == t.cut && t.fates == o.fates && t.overruns == o.overruns
                                 && |t.buffer| <= MAX_BLOCKS && |t.pending| < BLOCK_SIZE
    decreases |o.pending|
  {
    if |o.pending| >= BLOCK_SIZE {
      var next := Appending(o);
      assert next.sent + next.buffer == o.sent + o.buffer + [o.pending[..BLOCK_SIZE]];
      CuttingGathers(next);
    }
  }

  lemma EventKeepsUp(s: State, watched: bool, ready: Ready)
    requires KeepsUp(s) && Willing(ready)
    ensures KeepsUp(Handled(s, watched, ready))
    ensures Handled(s, watched, ready).exit == if s.exit.Some? || !Ends(ready) then s.exit
                                               else if ready.read.ReadFailed? then Some(Crashed(false))
                                               else Some(Code(if ready.stopping then 0 else 1))
  {
    hide Flushing, Cutting;
    if s.exit.None? && ready.CaptureReady? && ready.read.Data? && ready.read.bytes != [] {
      var o := s.o.(input := s.o.input + ready.read.bytes, pending := s.o.pending + ready.read.bytes);
      assert o.sent + o.buffer == o.cut;
      CuttingGathers(o);
      EmptiesWilling(s.(o := Cutting(o)), ready);
    } else if s.exit.None? && ready.WriterReady? {
      EmptiesWilling(s, ready);
    }
  }

  lemma EmptiesWilling(s: State, ready: Ready)
    requires s.exit.None? && Willing(ready) && |s.o.buffer| <= MAX_BLOCKS && s.o.sent + s.o.buffer == s.o.cut
    requires s.o.overruns == 0 && |s.o.pending| < BLOCK_SIZE
    requires forall p :: 0 <= p < |s.o.fates| ==> s.o.fates[p].Delivered?
    ensures KeepsUp(Flushing(s, ready.io)) && Flushing(s, ready.io).exit.None?
  {
    hide Flushing;
    FlushingIs(s, ready.io);
    WholesAre(ready.io, 0, |s.o.buffer|, |s.o.buffer|);
    assert s.o.buffer == [] ==> s.o.sent + s.o.buffer == s.o.sent;
    assert s.o.buffer[..|s.o.buffer|] == s.o.buffer;
  }

  lemma {:induction false} RoundKeepsUp(s: State, watched: bool, round: seq<Ready>)
    requires KeepsUp(s) && forall j :: 0 <= j < |round| ==> Willing(round[j])
    ensures KeepsUp(RoundFrom(s, watched, round))
    ensures (s.exit.None? && forall j :: 0 <= j < |round| ==> !Ends(round[j])) ==>
      RoundFrom(s, watched, round).exit.None?
  {
    hide Handled, KeepsUp;
    if round != [] {
      RoundKeepsUp(s, watched, round[..|round| - 1]);
      EventKeepsUp(RoundFrom(s, watched, round[..|round| - 1]), watched, round[|round| - 1]);
    }
  }

  /** If every opening finds a reader and every write takes its block, every block cut from the
      input is delivered, in order and without a loss, and only the capture can end the loop. */
  lemma {:induction false} AllIsDelivered(rounds: seq<seq<Ready>>)
    requires forall i, j :: 0 <= i < |rounds| && 0 <= j < |rounds[i]| ==> Willing(rounds[i][j])
    ensures var s := Relayed(rounds);
      && s.o.sent == s.o.cut && s.o.buffer == [] && s.o.overruns == 0
      && (forall p :: 0 <= p < |s.o.fates| ==> s.o.fates[p].Delivered?)
    ensures (forall i, j :: 0 <= i < |rounds| && 0 <= j < |rounds[i]| ==> !Ends(rounds[i][j])) ==>
      Relayed(rounds).exit.None?
  {
    RunKeepsUp(rounds);
  }

  lemma {:induction false} RunKeepsUp(rounds: seq<seq<Ready>>)
    requires forall i, j :: 0 <= i < |rounds| && 0 <= j < |rounds[i]| ==> Willing(rounds[i][j])
    ensures KeepsUp(Relayed(rounds))
    ensures (forall i, j :: 0 <= i < |rounds| && 0 <= j < |rounds[i]| ==> !Ends(rounds[i][j])) ==>
      Relayed(rounds).exit.None?
  {
    hide RoundFrom, KeepsUp, Willing;
    if rounds == [] {
      NothingKeepsUp();
    } else {
      var n := |rounds| - 1;
      RunKeepsUp(rounds[..n]);
      var u := Relayed(rounds[..n]);
      assert forall j :: 0 <= j < |rounds[n]| ==> Willing(rounds[n][j]);
      RoundKeepsUp(u, Watched(u), rounds[n]);
    }
  }

  lemma NothingKeepsUp()
    ensures KeepsUp(State(NOTHING, false, None))
  {}
}
