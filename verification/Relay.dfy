/** capture_relay.py: a bounded buffer between a byte stream cut at arbitrary points and a FIFO
    whose reader may stall, vanish or return. */
module Relay {
  import opened Prelude
  import opened Bytes

  type Block = seq<Byte>

  const BLOCK_SIZE := 1024
  const MAX_BUFFER_BYTES := 524288
  const MAX_BLOCKS := 512

  /** What became of a block that left the buffer. A delivered one remembers how many blocks
      had been cut from the input by then. */
  datatype Fate = Delivered(newest: nat) | Overrun | NoReader | BrokenPipe

  datatype OpenAnswer = Opened | NobodyReads | OpenFailed
  datatype WriteAnswer = Wrote(n: nat) | WouldBlock | Broken | WriteFailed

  /** What the operating system answers during one flush; a write beyond these would block. */
  datatype Io = Io(open: OpenAnswer, writes: seq<WriteAnswer>)

  datatype ReadAnswer = Data(bytes: seq<Byte>) | NotReady | ReadFailed

  /** A ready descriptor in one answer of select, and what handling it meets. */
  datatype Ready =
    | CaptureReady(read: ReadAnswer, stopping: bool, io: Io)
    | WriterReady(io: Io)

  /** How a flush ends: with a descriptor or without one, or raising. A descriptor opened by a
      flush that raises is known to nobody and never closed. */
  datatype Flushed = Stays(fd: Option<nat>) | Failed(leaked: bool)

  class PCMBuffer {
    var blocks: seq<Block>
    var bytes: nat
    var overruns: nat

    ghost predicate Valid()
      reads this
    {
      && bytes == BLOCK_SIZE * |blocks| && |blocks| <= MAX_BLOCKS
      && forall i :: 0 <= i < |blocks| ==> |blocks[i]| == BLOCK_SIZE
    }

    constructor ()
      ensures Valid() && blocks == [] && overruns == 0
    {
      blocks, bytes, overruns := [], 0, 0;
    }

    method Clear()
      requires Valid()
      modifies this
      ensures Valid() && blocks == [] && overruns == old(overruns)
    {
      blocks, bytes := [], 0;
    }

    /** A full buffer is emptied, not shifted: only the newest block is kept. */
    method Append(block: Block) returns (r: Answer<()>)
      requires Valid()
      modifies this
      ensures Valid() && (r.Raised? <==> |block| != BLOCK_SIZE)
      ensures r.Raised? ==> blocks == old(blocks) && overruns == old(overruns)
      ensures r.Got? ==>
        if |old(blocks)| == MAX_BLOCKS then blocks == [block] && overruns == old(overruns) + 1
        else blocks == old(blocks) + [block] && overruns == old(overruns)
    {
      if |block| != BLOCK_SIZE { return Raised; }
      if bytes + |block| > MAX_BUFFER_BYTES {
        Clear();
        overruns := overruns + 1;
      }
      blocks := blocks + [block];
      bytes := bytes + |block|;
      return Got(());
    }

    method Pop()
      requires Valid() && blocks != []
      modifies this
      ensures Valid() && blocks == old(blocks)[1..] && overruns == old(overruns)
    {
      bytes := bytes - |blocks[0]|;
      blocks := blocks[1..];
    }
  }

  function Repeat(f: Fate, n: nat): (r: seq<Fate>)
    ensures |r| == n && forall i :: 0 <= i < n ==> r[i] == f
  {
    seq(n, i => f)
  }

  /** The answer to the write of the flush's k-th block. */
  function Writing(io: Io, k: nat): WriteAnswer { if k < |io.writes| then io.writes[k] else WouldBlock }

  /** flush_fifo. It writes a prefix of the buffer, in order and whole; the rest stays, or is
      dropped because nobody reads. */
  method FlushFifo(pcm: PCMBuffer, fd: Option<nat>, io: Io, next: nat, taken: nat)
    returns (r: Flushed, sent: seq<Block>, fates: seq<Fate>, used: bool)
    requires pcm.Valid() && (fd.Some? ==> fd.value < next)
    modifies pcm
    ensures pcm.Valid() && pcm.overruns == old(pcm.overruns)
    ensures |sent| <= |old(pcm.blocks)| && sent == old(pcm.blocks)[..|sent|]
    ensures || (fates == Repeat(Delivered(taken), |sent|) && pcm.blocks == old(pcm.blocks)[|sent|..])
            || (&& pcm.blocks == [] && r == Stays(None)
                && (|| fates == Repeat(Delivered(taken), |sent|) + Repeat(BrokenPipe, |old(pcm.blocks)| - |sent|)
                    || (&& fd.None? && io.open == NobodyReads && sent == []
                        && fates == Repeat(NoReader, |old(pcm.blocks)|))))
    ensures r == Stays(None) ==> pcm.blocks == []
    ensures forall k :: 0 <= k < |sent| ==> Writing(io, k) == Wrote(BLOCK_SIZE)
    ensures old(pcm.blocks) != [] && fd.None? && io.open != Opened ==>
      && sent == [] && !used && r == (if io.open == NobodyReads then Stays(None) else Failed(false))
      && (io.open == NobodyReads ==> fates == Repeat(NoReader, |old(pcm.blocks)|))
    ensures old(pcm.blocks) != [] && (fd.Some? || io.open == Opened) ==>
      && used == fd.None?
      && if |sent| == |old(pcm.blocks)| then r.Stays? && r.fd.Some?
         else match Writing(io, |sent|)
              case WouldBlock => r.Stays? && r.fd.Some? && pcm.blocks != []
              case Broken => r == Stays(None) && |fates| == |old(pcm.blocks)|
              case WriteFailed => r.Failed?
              case Wrote(n) => n != BLOCK_SIZE && r.Failed?
    ensures r.Failed? ==> |fates| == |sent|
    ensures r.Stays? && r.fd.Some? ==> r.fd == fd || (fd.None? && used && r.fd == Some(next))
    ensures r == Failed(true) <==> r.Failed? && used
    ensures old(pcm.blocks) == [] ==> r == Stays(fd) && !used
  {
    sent, fates, used := [], [], false;
    if pcm.blocks == [] { return Stays(fd), sent, fates, used; }
    var current := fd;
    if fd.None? {
      match io.open
      case NobodyReads =>
        fates := Repeat(NoReader, |pcm.blocks|);
        pcm.Clear();
        return Stays(None), sent, fates, used;
      case OpenFailed => return Failed(false), sent, fates, used;
      case Opened => current, used := Some(next), true;
    }
    while pcm.blocks != []
      invariant pcm.Valid() && pcm.overruns == old(pcm.overruns)
      invariant |sent| <= |old(pcm.blocks)| && sent == old(pcm.blocks)[..|sent|]
      invariant pcm.blocks == old(pcm.blocks)[|sent|..]
      invariant fates == Repeat(Delivered(taken), |sent|)
      invariant forall k :: 0 <= k < |sent| ==> Writing(io, k) == Wrote(BLOCK_SIZE)
      decreases |pcm.blocks|
    {
      match Writing(io, |sent|)
      case WouldBlock => return Stays(current), sent, fates, used;
      case Broken =>
        fates := fates + Repeat(BrokenPipe, |pcm.blocks|);
        pcm.Clear();
        return Stays(None), sent, fates, used;
      case WriteFailed => return Failed(used), sent, fates, used;
      case Wrote(n) =>
        if n != BLOCK_SIZE { return Failed(used), sent, fates, used; }
        sent, fates := sent + [pcm.blocks[0]], fates + [Delivered(taken)];
        pcm.Pop();
    }
    return Stays(current), sent, fates, used;
  }

  // ------------------------------------------------------------- the delivered stream

  function Flatten(blocks: seq<Block>): seq<Byte> {
    if blocks == [] then [] else Flatten(blocks[..|blocks| - 1]) + blocks[|blocks| - 1]
  }

  /** The delivered blocks among the first ones, in input order. */
  function Picked(cut: seq<Block>, fates: seq<Fate>): seq<Block>
    requires |fates| <= |cut|
  {
    if fates == [] then []
    else
      var last := |fates| - 1;
      Picked(cut, fates[..last]) + if fates[last].Delivered? then [cut[last]] else []
  }

  function Count(fates: seq<Fate>, f: Fate): nat {
    if fates == [] then 0 else Count(fates[..|fates| - 1], f) + if fates[|fates| - 1] == f then 1 else 0
  }

  /** Every delivered block was among the newest MAX_BLOCKS when it was written. */
  ghost predicate Fresh(fates: seq<Fate>, taken: nat) {
    forall k :: 0 <= k < |fates| && fates[k].Delivered? ==>
      k < fates[k].newest <= k + MAX_BLOCKS && fates[k].newest <= taken
  }

  lemma {:induction false} PickedGrows(cut: seq<Block>, more: seq<Block>, fates: seq<Fate>)
    requires |fates| <= |cut|
    ensures Picked(cut + more, fates) == Picked(cut, fates)
  {
    if fates != [] { PickedGrows(cut, more, fates[..|fates| - 1]); }
  }

  /** n more blocks meet the same fate. */
  lemma {:induction false} SameFate(cut: seq<Block>, fates: seq<Fate>, f: Fate, n: nat)
    requires |fates| + n <= |cut|
    ensures Picked(cut, fates + Repeat(f, n))
            == Picked(cut, fates) + if f.Delivered? then cut[|fates|..|fates| + n] else []
    ensures Count(fates + Repeat(f, n), Overrun) == Count(fates, Overrun) + if f == Overrun then n else 0
  {
    var all := fates + Repeat(f, n);
    if n == 0 {
      assert all == fates;
    } else {
      assert all[..|all| - 1] == fates + Repeat(f, n - 1);
      SameFate(cut, fates, f, n - 1);
    }
  }

  /** Everything known about the blocks cut so far. */
  ghost predicate Accounted(cut: seq<Block>, fates: seq<Fate>, sent: seq<Block>, buffer: seq<Block>, overruns: nat) {
    && |fates| + |buffer| == |cut| && buffer == cut[|fates|..] && |buffer| <= MAX_BLOCKS
    && sent == Picked(cut, fates) && Fresh(fates, |cut|)
    && Count(fates, Overrun) == MAX_BLOCKS * overruns
  }

  /** A flush accounts for what it sent and dropped. */
  lemma AfterFlush(cut: seq<Block>, fates: seq<Fate>, sent: seq<Block>, buffer: seq<Block>, overruns: nat,
                   n: nat, f: Fate, m: nat)
    requires Accounted(cut, fates, sent, buffer, overruns)
    requires n + m <= |buffer| && f != Overrun && !f.Delivered?
    ensures Accounted(cut, fates + Repeat(Delivered(|cut|), n) + Repeat(f, m), sent + buffer[..n],
                      buffer[n + m..], overruns)
  {
    SameFate(cut, fates, Delivered(|cut|), n);
    SameFate(cut, fates + Repeat(Delivered(|cut|), n), f, m);
    assert buffer[..n] == cut[|fates|..|fates| + n];
  }

  /** A new block, with or without an overrun. */
  lemma AfterAppend(cut: seq<Block>, fates: seq<Fate>, sent: seq<Block>, buffer: seq<Block>, overruns: nat,
                    block: Block)
    requires Accounted(cut, fates, sent, buffer, overruns)
    ensures |buffer| < MAX_BLOCKS ==> Accounted(cut + [block], fates, sent, buffer + [block], overruns)
    ensures |buffer| == MAX_BLOCKS ==>
      Accounted(cut + [block], fates + Repeat(Overrun, MAX_BLOCKS), sent, [block], overruns + 1)
  {
    PickedGrows(cut, [block], fates);
    if |buffer| == MAX_BLOCKS { SameFate(cut + [block], fates, Overrun, MAX_BLOCKS); }
  }

  lemma FlattenPush(blocks: seq<Block>, block: Block)
    ensures Flatten(blocks + [block]) == Flatten(blocks) + block
  {
    assert (blocks + [block])[..|blocks|] == blocks;
  }

  // --------------------------------------------- what the answers make of the stream

  datatype Exit = Code(code: int) | Crashed(leaked: bool)

  /** What a run has done: every byte read, the blocks cut from them, what became of those that
      left the buffer, what os.write took, and what is left. */
  datatype Outcome = Outcome(input: seq<Byte>, cut: seq<Block>, fates: seq<Fate>, sent: seq<Block>,
                             buffer: seq<Block>, pending: seq<Byte>, overruns: nat)

  /** Ordering, freshness, conservation. */
  ghost predicate Kept(o: Outcome) {
    && Flatten(o.cut) + o.pending == o.input
    && (forall i :: 0 <= i < |o.cut| ==> |o.cut[i]| == BLOCK_SIZE)
    && Accounted(o.cut, o.fates, o.sent, o.buffer, o.overruns)
  }

  /** The same once all whole blocks are cut. */
  ghost predicate Sound(o: Outcome) { Kept(o) && |o.pending| < BLOCK_SIZE }

  /** The relay between two events: its outcome so far, whether the FIFO is open, and how the
      loop ended. */
  datatype State = State(o: Outcome, open: bool, exit: Option<Exit>)

  const NOTHING := Outcome([], [], [], [], [], [], 0)

  /** Cutting one block. */
  function Appending(o: Outcome): Outcome
    requires |o.pending| >= BLOCK_SIZE
  {
    var block := o.pending[..BLOCK_SIZE];
    var next := o.(cut := o.cut + [block], pending := o.pending[BLOCK_SIZE..]);
    if |o.buffer| < MAX_BLOCKS then next.(buffer := o.buffer + [block])
    else next.(buffer := [block], fates := o.fates + Repeat(Overrun, |o.buffer|), overruns := o.overruns + 1)
  }

  function Cutting(o: Outcome): Outcome
    decreases |o.pending|
  {
    if |o.pending| < BLOCK_SIZE then o else Cutting(Appending(o))
  }

  function Reading(o: Outcome, bytes: seq<Byte>): Outcome {
    Cutting(o.(input := o.input + bytes, pending := o.pending + bytes))
  }

  /** How many blocks are written whole, of n, from the k-th on. */
  function Wholes(io: Io, k: nat, n: nat): (r: nat)
    requires k <= n
    ensures k <= r <= n && (forall i :: k <= i < r ==> Writing(io, i) == Wrote(BLOCK_SIZE))
    ensures r < n ==> Writing(io, r) != Wrote(BLOCK_SIZE)
    decreases n - k
  {
    if k < n && Writing(io, k) == Wrote(BLOCK_SIZE) then Wholes(io, k + 1, n) else k
  }

  lemma {:induction false} WholesAre(io: Io, k: nat, n: nat, r: nat)
    requires k <= r <= n && (forall i :: k <= i < r ==> Writing(io, i) == Wrote(BLOCK_SIZE))
    requires r < n ==> Writing(io, r) != Wrote(BLOCK_SIZE)
    ensures Wholes(io, k, n) == r
  {
    if k < r { assert Writing(io, Wholes(io, k, n)) == Wrote(BLOCK_SIZE) || Wholes(io, k, n) >= r; }
  }

  /** What a flush makes of the buffer, by the answers it meets. */
  function Flushing(s: State, io: Io): State {
    var o := s.o;
    if o.buffer == [] then s
    else if !s.open && io.open == NobodyReads then
      s.(o := o.(fates := o.fates + Repeat(NoReader, |o.buffer|), buffer := []))
    else if !s.open && io.open == OpenFailed then s.(exit := Some(Crashed(false)))
    else
      var n := Wholes(io, 0, |o.buffer|);
      var whole := o.(fates := o.fates + Repeat(Delivered(|o.cut|), n), sent := o.sent + o.buffer[..n],
                      buffer := o.buffer[n..]);
      if n == |o.buffer| || Writing(io, n) == WouldBlock then State(whole, true, None)
      else if Writing(io, n) == Broken then
        State(whole.(fates := whole.fates + Repeat(BrokenPipe, |whole.buffer|), buffer := []), false, None)
      else State(whole, s.open, Some(Crashed(!s.open)))
  }

  /** What one ready descriptor leads to; a watched one is that of the FIFO. */
  function Handled(s: State, watched: bool, ready: Ready): State {
    if s.exit.Some? then s
    else
      match ready
      case WriterReady(io) => if watched then Flushing(s, io) else s
      case CaptureReady(NotReady, _, _) => s
      case CaptureReady(ReadFailed, _, _) => s.(exit := Some(Crashed(false)))
      case CaptureReady(Data(bytes), stopping, io) =>
        if bytes == [] then s.(exit := Some(Code(if stopping then 0 else 1)))
        else Flushing(s.(o := Reading(s.o, bytes)), io)
  }

  function RoundFrom(s: State, watched: bool, round: seq<Ready>): State {
    if round == [] then s else Handled(RoundFrom(s, watched, round[..|round| - 1]), watched, round[|round| - 1])
  }

  /** select reports the FIFO in a round only if it is watched when the round begins. */
  function Watched(s: State): bool { s.open && s.o.buffer != [] }

  function Relayed(rounds: seq<seq<Ready>>): State {
    if rounds == [] then State(NOTHING, false, None)
    else
      var s := Relayed(rounds[..|rounds| - 1]);
      RoundFrom(s, Watched(s), rounds[|rounds| - 1])
  }

  lemma {:induction false} EndedRound(s: State, watched: bool, round: seq<Ready>, j: nat)
    requires j <= |round| && RoundFrom(s, watched, round[..j]).exit.Some?
    ensures RoundFrom(s, watched, round) == RoundFrom(s, watched, round[..j])
  {
    hide Handled;
    if j < |round| {
      var front := round[..|round| - 1];
      assert front[..j] == round[..j];
      EndedRound(s, watched, front, j);
      EndedEvent(RoundFrom(s, watched, front), watched, round[|round| - 1]);
    } else {
      assert round[..j] == round;
    }
  }

  lemma EndedEvent(s: State, watched: bool, ready: Ready)
    requires s.exit.Some?
    ensures Handled(s, watched, ready) == s
  {}

  lemma {:induction false} EndedRun(rounds: seq<seq<Ready>>, i: nat)
    requires i <= |rounds| && Relayed(rounds[..i]).exit.Some?
    ensures Relayed(rounds) == Relayed(rounds[..i])
  {
    hide RoundFrom;
    if i < |rounds| {
      var front := rounds[..|rounds| - 1];
      assert front[..i] == rounds[..i];
      EndedRun(front, i);
      NothingMore(Relayed(front), Watched(Relayed(front)), rounds[|rounds| - 1]);
    } else {
      assert rounds[..i] == rounds;
    }
  }

  lemma {:induction false} NothingMore(s: State, watched: bool, round: seq<Ready>)
    requires s.exit.Some?
    ensures RoundFrom(s, watched, round) == s
  {
    if round != [] { NothingMore(s, watched, round[..|round| - 1]); }
  }

  // ------------------------------------------------------------------------ the loop

  ghost predicate Holds(pcm: PCMBuffer, o: Outcome)
    reads pcm
  {
    pcm.Valid() && o.buffer == pcm.blocks && o.overruns == pcm.overruns
  }

  /** Cutting what was read into blocks. */
  method CutBlocks(pcm: PCMBuffer, o0: Outcome) returns (o: Outcome)
    requires Kept(o0) && Holds(pcm, o0)
    modifies pcm
    ensures Sound(o) && Holds(pcm, o) && o.input == o0.input && o0.cut <= o.cut
    ensures o == Cutting(o0)
  {
    hide Kept;
    o := o0;
    while |o.pending| >= BLOCK_SIZE
      invariant Kept(o) && Holds(pcm, o) && o.input == o0.input && o0.cut <= o.cut
      invariant Cutting(o) == Cutting(o0)
      decreases |o.pending|
    {
      var block, overruns := o.pending[..BLOCK_SIZE], pcm.overruns;
      AppendingKeeps(o);
      ghost var next := Appending(o);
      var appended := pcm.Append(block);
      var fates := if pcm.overruns > overruns then o.fates + Repeat(Overrun, MAX_BLOCKS) else o.fates;
      o := Outcome(o.input, o.cut + [block], fates, o.sent, pcm.blocks, o.pending[BLOCK_SIZE..], pcm.overruns);
      assert o == next;
    }
  }

  lemma AppendingKeeps(o: Outcome)
    requires Kept(o) && |o.pending| >= BLOCK_SIZE && |o.buffer| <= MAX_BLOCKS
    ensures Kept(Appending(o))
  {
    hide Flatten, Accounted;
    var block := o.pending[..BLOCK_SIZE];
    AfterAppend(o.cut, o.fates, o.sent, o.buffer, o.overruns, block);
    FlattenPush(o.cut, block);
    assert o.pending == block + o.pending[BLOCK_SIZE..];
    assert Flatten(o.cut) + block + o.pending[BLOCK_SIZE..] == o.input;
  }


  /** The write registrations of the selector, which raises for a descriptor registered twice
      or not registered: the requires state that the loop never meets that. */
  class Selector {
    var watching: set<nat>

    constructor ()
      ensures watching == {}
    {
      watching := {};
    }

    method Register(fd: nat)
      requires fd !in watching
      modifies this
      ensures watching == old(watching) + {fd}
    {
      watching := watching + {fd};
    }

    method Unregister(fd: nat)
      requires fd in watching
      modifies this
      ensures watching == old(watching) - {fd}
    {
      watching := watching - {fd};
    }
  }

  /** The state at one call of select: the FIFO is open or not, so many blocks are buffered,
      and these descriptors are watched for writing. */
  datatype Watch = Watch(fd: Option<nat>, buffered: nat, watching: set<nat>)

  /** An open FIFO is watched exactly while there is something to write, and nothing else is. */
  predicate Disciplined(w: Watch) {
    w.watching == if w.fd.Some? && w.buffered > 0 then {w.fd.value} else {}
  }

  /** Everything the answers hand over, in order. */
  function ReadBy(round: seq<Ready>): seq<Byte> {
    if round == [] then []
    else
      var last := round[|round| - 1];
      ReadBy(round[..|round| - 1]) + if last.CaptureReady? && last.read.Data? then last.read.bytes else []
  }

  function AllRead(rounds: seq<seq<Ready>>): seq<Byte> {
    if rounds == [] then [] else AllRead(rounds[..|rounds| - 1]) + ReadBy(rounds[|rounds| - 1])
  }

  /** What was read up to event j of round i begins what all rounds hand over. */
  lemma {:induction false} ReadSoFar(rounds: seq<seq<Ready>>, i: nat, j: nat)
    requires i < |rounds| && j <= |rounds[i]|
    ensures AllRead(rounds[..i]) + ReadBy(rounds[i][..j]) <= AllRead(rounds)
  {
    RoundsGrow(rounds, i + 1);
    assert rounds[..i + 1][..i] == rounds[..i];
    ReadGrows(rounds[i], j);
  }

  lemma {:induction false} ReadGrows(round: seq<Ready>, j: nat)
    requires j <= |round|
    ensures ReadBy(round[..j]) <= ReadBy(round)
  {
    if j < |round| {
      assert round[..|round| - 1][..j] == round[..j];
      ReadGrows(round[..|round| - 1], j);
    } else {
      assert round[..j] == round;
    }
  }

  lemma {:induction false} RoundsGrow(rounds: seq<seq<Ready>>, i: nat)
    requires i <= |rounds|
    ensures AllRead(rounds[..i]) <= AllRead(rounds)
  {
    if i < |rounds| {
      assert rounds[..|rounds| - 1][..i] == rounds[..i];
      RoundsGrow(rounds[..|rounds| - 1], i);
    } else {
      assert rounds[..i] == rounds;
    }
  }

  /** A descriptor answer that ends the loop. */
  predicate Ends(r: Ready) { r.CaptureReady? && (r.read == ReadFailed || r.read == Data([])) }

  /** One flush from the loop, after the registration was dropped. */
  method Flush(pcm: PCMBuffer, fd: Option<nat>, io: Io, next: nat, o: Outcome)
    returns (r: Flushed, o': Outcome, next': nat)
    requires (fd.Some? ==> fd.value < next) && Sound(o) && Holds(pcm, o)
    modifies pcm
    ensures Sound(o') && Holds(pcm, o') && o'.input == o.input
    ensures next <= next' && (r.Stays? && r.fd.Some? ==> r.fd.value < next')
    ensures r == Stays(None) ==> pcm.blocks == []
    ensures var s := Flushing(State(o, fd.Some?, None), io);
      && o' == s.o
      && match r
         case Stays(kept) => s.exit.None? && s.open == kept.Some?
         case Failed(leaked) => s.exit == Some(Crashed(leaked))
  {
    hide Sound, Flushing, Wholes;
    ghost var s := State(o, fd.Some?, None);
    FlushingKeeps(s, io);
    FlushingIs(s, io);
    var sent, fates, used;
    r, sent, fates, used := FlushFifo(pcm, fd, io, next, |o.cut|);
    next' := if used then next + 1 else next;
    if o.buffer != [] && (fd.Some? || io.open == Opened) { WholesAre(io, 0, |o.buffer|, |sent|); }
    o' := o.(fates := o.fates + fates, sent := o.sent + sent, buffer := pcm.blocks);
    assert o.fates + [] == o.fates && o.sent + [] == o.sent;
    assert o' == Flushing(s, io).o;
  }

  /** The blocks given up by a flush that ends at block n. */
  function Lost(io: Io, n: nat, of: nat): seq<Fate>
    requires n <= of
  {
    if n < of && Writing(io, n) == Broken then Repeat(BrokenPipe, of - n) else []
  }

  lemma FlushingIs(s: State, io: Io)
    requires s.exit.None?
    ensures s.o.buffer == [] ==> Flushing(s, io) == s
    ensures s.o.buffer != [] && !s.open && io.open == NobodyReads ==>
      Flushing(s, io) == s.(o := s.o.(fates := s.o.fates + Repeat(NoReader, |s.o.buffer|), buffer := []))
    ensures s.o.buffer != [] && !s.open && io.open == OpenFailed ==> Flushing(s, io) == s.(exit := Some(Crashed(false)))
    ensures s.o.buffer != [] && (s.open || io.open == Opened) ==>
      var n := Wholes(io, 0, |s.o.buffer|);
      var lost := Lost(io, n, |s.o.buffer|);
      var t := Flushing(s, io);
      && t.o == s.o.(fates := s.o.fates + (Repeat(Delivered(|s.o.cut|), n) + lost),
                     sent := s.o.sent + s.o.buffer[..n], buffer := s.o.buffer[n + |lost|..])
      && if n == |s.o.buffer| || Writing(io, n) == WouldBlock then t.open && t.exit.None?
         else if Writing(io, n) == Broken then !t.open && t.exit.None?
         else t.exit == Some(Crashed(!s.open))
  {
    var n := Wholes(io, 0, |s.o.buffer|);
    var first, lost := Repeat(Delivered(|s.o.cut|), n), Lost(io, n, |s.o.buffer|);
    assert s.o.fates + (first + lost) == s.o.fates + first + lost;
    assert s.o.fates + (first + []) == s.o.fates + first;
  }

  lemma FlushingKeeps(s: State, io: Io)
    requires Sound(s.o)
    ensures Sound(Flushing(s, io).o)
  {
    hide Flatten, Picked, Count, Fresh, Accounted, Wholes;
    var o := s.o;
    if s.open || io.open == Opened {
      var n := Wholes(io, 0, |o.buffer|);
      var lost := if n < |o.buffer| && Writing(io, n) == Broken then |o.buffer| - n else 0;
      AfterFlush(o.cut, o.fates, o.sent, o.buffer, o.overruns, n, BrokenPipe, lost);
      var fates := o.fates + Repeat(Delivered(|o.cut|), n);
      assert lost == 0 ==> fates + Repeat(BrokenPipe, lost) == fates;
    } else {
      AfterFlush(o.cut, o.fates, o.sent, o.buffer, o.overruns, 0, NoReader, |o.buffer|);
      assert o.fates + Repeat(Delivered(|o.cut|), 0) == o.fates && o.sent + o.buffer[..0] == o.sent;
    }
  }

  /** The FIFO side of the loop: descriptor, registration and buffer agree. */
  ghost predicate Registered(fd: Option<nat>, next: nat, registered: bool, watching: set<nat>, buffer: seq<Block>) {
    && (fd.Some? ==> fd.value < next) && (fd.None? ==> buffer == [])
    && (registered ==> fd.Some? && buffer != [])
    && watching == (if registered then {fd.value} else {})
  }

  /** Handling what one call of select reported; `handled` of its answers were, when the loop
      ends there. */
  method HandleRound(pcm: PCMBuffer, selector: Selector, fd0: Option<nat>, next0: nat, registered0: bool, o0: Outcome,
                     round: seq<Ready>)
    returns (exit: Option<Exit>, fd: Option<nat>, next: nat, registered: bool, o: Outcome, ghost handled: nat)
    requires Sound(o0) && Holds(pcm, o0)
    requires Registered(fd0, next0, registered0, selector.watching, pcm.blocks)
    modifies pcm, selector
    ensures Sound(o) && Holds(pcm, o)
    ensures handled <= |round| && o.input == o0.input + ReadBy(round[..handled])
    ensures exit.None? ==> handled == |round| && Registered(fd, next, registered, selector.watching, pcm.blocks)
    ensures (forall j :: 0 <= j < |round| ==> !Ends(round[j])) ==> exit.None? || exit.value.Crashed?
    ensures Agrees(RoundFrom(State(o0, fd0.Some?, None), registered0, round), o, fd, exit)
  {
    hide Sound, ReadBy, RoundFrom, Handled, Flushing, Cutting;
    exit, fd, next, registered, o := None, fd0, next0, registered0, o0;
    ghost var s0 := State(o0, fd0.Some?, None);
    NothingRead(s0, registered0, round);
    for j := 0 to |round|
      invariant Sound(o) && Holds(pcm, o)
      invariant Registered(fd, next, registered, selector.watching, pcm.blocks)
      invariant o.input == o0.input + ReadBy(round[..j])
      invariant RoundFrom(s0, registered0, round[..j]) == State(o, fd.Some?, None)
    {
      var ready := round[j];
      handled := j;
      RoundContinues(s0, registered0, round, j);
      HandledIs(State(o, fd.Some?, None), registered0, ready);
      if ready.WriterReady? && !registered0 { continue; }       // select reports only what is registered
      if ready.CaptureReady? {
        match ready.read
        case NotReady => continue;
        case ReadFailed =>
          EndedRound(s0, registered0, round, j + 1);
          exit := Some(Crashed(false));
          return;
        case Data(bytes) =>
          if bytes == [] {
            EndedRound(s0, registered0, round, j + 1);
            exit := Some(Code(if ready.stopping then 0 else 1));
            return;
          }
          o := Take(pcm, o, bytes);
      }
      handled := j + 1;
      if registered {
        selector.Unregister(fd.value);
        registered := false;
      }
      var flushed;
      flushed, o, next := Flush(pcm, fd, ready.io, next, o);
      match flushed
      case Failed(leaked) =>
        EndedRound(s0, registered0, round, j + 1);
        exit := Some(Crashed(leaked));
        return;
      case Stays(kept) => fd := kept;
    }
    handled := |round|;
    assert round[..|round|] == round;
  }

  /** Where the loop is, is where the answers lead. */
  predicate Agrees(s: State, o: Outcome, fd: Option<nat>, exit: Option<Exit>) {
    s.o == o && s.exit == exit && (exit.None? ==> s.open == fd.Some?)
  }

  /** Handling, piece by piece. */
  lemma HandledIs(s: State, watched: bool, ready: Ready)
    requires s.exit.None?
    ensures match ready
            case WriterReady(io) => Handled(s, watched, ready) == if watched then Flushing(s, io) else s
            case CaptureReady(NotReady, _, _) => Handled(s, watched, ready) == s
            case CaptureReady(ReadFailed, _, _) => Handled(s, watched, ready) == s.(exit := Some(Crashed(false)))
            case CaptureReady(Data(bytes), stopping, io) =>
              Handled(s, watched, ready)
              == if bytes == [] then s.(exit := Some(Code(if stopping then 0 else 1)))
                 else Flushing(s.(o := Reading(s.o, bytes)), io)
  {}

  /** run, over any finite sequence of select answers, until a stop request is seen. */
  method Run(rounds: seq<seq<Ready>>) returns (exit: Exit, o: Outcome, selects: seq<Watch>)
    ensures Sound(o) && o.input <= AllRead(rounds)
    ensures (forall i, j :: 0 <= i < |rounds| && 0 <= j < |rounds[i]| ==> !Ends(rounds[i][j])) && exit.Code? ==>
      o.input == AllRead(rounds) && exit == Code(0)
    ensures forall i :: 0 <= i < |selects| ==> Disciplined(selects[i])
    ensures o == Relayed(rounds).o && exit == if Relayed(rounds).exit.Some? then Relayed(rounds).exit.value else Code(0)
  {
    hide Sound, AllRead, ReadBy, Relayed, RoundFrom;
    var pcm := new PCMBuffer();
    var selector := new Selector();
    var fd: Option<nat>, next, registered := None, 0, false;
    o, selects := NOTHING, [];
    NothingYet();
    assert rounds[..0] == [];
    for i := 0 to |rounds|
      invariant fresh(pcm) && fresh(selector)
      invariant Sound(o) && Holds(pcm, o)
      invariant Registered(fd, next, registered, selector.watching, pcm.blocks)
      invariant o.input == AllRead(rounds[..i])
      invariant forall j :: 0 <= j < |selects| ==> Disciplined(selects[j])
      invariant Relayed(rounds[..i]) == State(o, fd.Some?, None)
    {
      if fd.Some? && pcm.blocks != [] && !registered {
        selector.Register(fd.value);
        registered := true;
      } else if registered && (fd.None? || pcm.blocks == []) {
        assert false;       // an earlier flush has always unregistered it
      }
      selects := selects + [Watch(fd, |pcm.blocks|, selector.watching)];
      ghost var handled;
      var ended;
      RoundEnds(rounds, i);
      ended, fd, next, registered, o, handled := HandleRound(pcm, selector, fd, next, registered, o, rounds[i]);
      ReadSoFar(rounds, i, handled);
      if ended.Some? {
        EndedRun(rounds, i + 1);
        return ended.value, o, selects;
      }
    }
    assert rounds[..|rounds|] == rounds;
    return Code(0), o, selects;
  }

  method Take(pcm: PCMBuffer, o: Outcome, bytes: seq<Byte>) returns (o': Outcome)
    requires Sound(o) && Holds(pcm, o)
    modifies pcm
    ensures Sound(o') && Holds(pcm, o') && o'.input == o.input + bytes && o' == Reading(o, bytes)
  {
    hide Flatten, Accounted, Cutting;
    var next := o.(input := o.input + bytes, pending := o.pending + bytes);
    assert Flatten(o.cut) + (o.pending + bytes) == o.input + bytes;
    o' := CutBlocks(pcm, next);
  }

  lemma NothingYet()
    ensures Sound(NOTHING) && AllRead([]) == [] && Relayed([]) == State(NOTHING, false, None)
  {}

  lemma NothingRead(s: State, watched: bool, round: seq<Ready>)
    ensures ReadBy(round[..0]) == [] && RoundFrom(s, watched, round[..0]) == s
  {}

  lemma RoundContinues(s: State, watched: bool, round: seq<Ready>, j: nat)
    requires j < |round|
    ensures ReadBy(round[..j + 1])
            == ReadBy(round[..j]) + if round[j].CaptureReady? && round[j].read.Data? then round[j].read.bytes else []
    ensures RoundFrom(s, watched, round[..j + 1]) == Handled(RoundFrom(s, watched, round[..j]), watched, round[j])
  {
    hide Handled;
    assert round[..j + 1][..j] == round[..j];
  }

  lemma RoundEnds(rounds: seq<seq<Ready>>, i: nat)
    requires i < |rounds|
    ensures AllRead(rounds[..i + 1]) == AllRead(rounds[..i]) + ReadBy(rounds[i][..|rounds[i]|])
    ensures Relayed(rounds[..i + 1])
            == RoundFrom(Relayed(rounds[..i]), Watched(Relayed(rounds[..i])), rounds[i])
  {
    hide RoundFrom;
    assert rounds[..i + 1][..i] == rounds[..i];
    assert rounds[i][..|rounds[i]|] == rounds[i];
  }

  // ------------------------------------------------------- what a sound outcome means

  /** Where block k lies in the input: at a multiple of the block size. */
  lemma {:induction false} BlockAt(cut: seq<Block>, rest: seq<Byte>, k: nat)
    requires k < |cut| && forall i :: 0 <= i < |cut| ==> |cut[i]| == BLOCK_SIZE
    ensures |Flatten(cut)| == BLOCK_SIZE * |cut|
    ensures (Flatten(cut) + rest)[BLOCK_SIZE * k..BLOCK_SIZE * (k + 1)] == cut[k]
  {
    var last := |cut| - 1;
    if k < last {
      BlockAt(cut[..last], cut[last] + rest, k);
      assert Flatten(cut) + rest == Flatten(cut[..last]) + (cut[last] + rest);
    } else {
      FlattenLength(cut[..last]);
    }
  }

  lemma {:induction false} FlattenLength(cut: seq<Block>)
    requires forall i :: 0 <= i < |cut| ==> |cut[i]| == BLOCK_SIZE
    ensures |Flatten(cut)| == BLOCK_SIZE * |cut|
  {
    if cut != [] { FlattenLength(cut[..|cut| - 1]); }
  }

  function Indices(fates: seq<Fate>): seq<nat> {
    if fates == [] then []
    else
      var last := |fates| - 1;
      Indices(fates[..last]) + if fates[last].Delivered? then [last] else []
  }

  lemma {:induction false} PickedAt(cut: seq<Block>, fates: seq<Fate>)
    requires |fates| <= |cut|
    ensures var at := Indices(fates);
      && |at| == |Picked(cut, fates)|
      && (forall n :: 0 <= n < |at| ==>
        at[n] < |fates| && fates[at[n]].Delivered? && Picked(cut, fates)[n] == cut[at[n]])
      && (forall m, n :: 0 <= m < n < |at| ==> at[m] < at[n])
  {
    if fates != [] { PickedAt(cut, fates[..|fates| - 1]); }
  }

  /** The delivered stream is an in-order subsequence of whole input blocks, each among the 512
      newest when it was written. */
  lemma DeliveredInOrder(o: Outcome)
    requires Sound(o)
    ensures var at := Indices(o.fates);
      && |at| == |o.sent|
      && (forall m, n :: 0 <= m < n < |at| ==> at[m] < at[n])
      && (forall n :: 0 <= n < |at| ==>
            && at[n] < |o.cut| && BLOCK_SIZE * (at[n] + 1) <= |o.input|
            && o.sent[n] == o.input[BLOCK_SIZE * at[n]..BLOCK_SIZE * (at[n] + 1)]
            && at[n] < |o.fates| && o.fates[at[n]].Delivered? && at[n] < o.fates[at[n]].newest <= at[n] + MAX_BLOCKS)
  {
    PickedAt(o.cut, o.fates);
    FlattenLength(o.cut);
    forall n | 0 <= n < |o.sent|
      ensures o.sent[n] == o.input[BLOCK_SIZE * Indices(o.fates)[n]..BLOCK_SIZE * (Indices(o.fates)[n] + 1)] {
      BlockAt(o.cut, o.pending, Indices(o.fates)[n]);
    }
  }

  /** The buffer holds the newest whole blocks of the input, without a gap. */
  lemma BufferIsSuffix(o: Outcome)
    requires Sound(o)
    ensures |o.buffer| <= MAX_BLOCKS && |o.input| == BLOCK_SIZE * (|o.fates| + |o.buffer|) + |o.pending|
    ensures o.input[BLOCK_SIZE * |o.fates|..] == Flatten(o.buffer) + o.pending
  {
    FlattenLength(o.cut);
    FlattenLength(o.cut[..|o.fates|]);
    FlattenSplit(o.cut, |o.fates|);
  }

  lemma {:induction false} FlattenSplit(cut: seq<Block>, n: nat)
    requires n <= |cut|
    ensures Flatten(cut) == Flatten(cut[..n]) + Flatten(cut[n..])
  {
    if n < |cut| {
      var front := cut[..|cut| - 1];
      FlattenSplit(front, n);
      assert front[..n] == cut[..n];
      assert cut[n..][..|cut| - 1 - n] == front[n..];
    } else {
      assert cut[..n] == cut && cut[n..] == [];
    }
  }

  lemma {:induction false} EveryFate(cut: seq<Block>, fates: seq<Fate>)
    requires |fates| <= |cut|
    ensures |fates| == |Picked(cut, fates)| + Count(fates, Overrun) + Count(fates, NoReader) + Count(fates, BrokenPipe)
  {
    if fates != [] { EveryFate(cut, fates[..|fates| - 1]); }
  }

  /** Every input byte is delivered, dropped, buffered or pending, and nothing twice; an
      overrun drops exactly 512 blocks. */
  lemma Conservation(o: Outcome)
    requires Sound(o)
    ensures |o.input| == |o.pending|
      + BLOCK_SIZE * (|o.sent| + |o.buffer| + MAX_BLOCKS * o.overruns
                      + Count(o.fates, NoReader) + Count(o.fates, BrokenPipe))
  {
    FlattenLength(o.cut);
    EveryFate(o.cut, o.fates);
  }
}
