/** volume_handoff.complete_trace_lines: framing reads of any size into lines. */
module TraceFraming {
  import opened Bytes

  type Line = seq<Byte>

  const MAX_TRACE_LINE_BYTES := 1024 * 1024

  /** Everything before the last newline, cut at the newlines. */
  function Lines(s: seq<Byte>): seq<Line>
    decreases |s|
  {
    var e := Find(s);
    if e == |s| then [] else [s[..e]] + Lines(s[e + 1..])
  }

  /** What follows the last newline. */
  function Tail(s: seq<Byte>): seq<Byte>
    decreases |s|
  {
    var e := Find(s);
    if e == |s| then s else Tail(s[e + 1..])
  }

  /** The lines that are not too long. */
  function Kept(lines: seq<Line>): seq<Line> {
    if lines == [] then []
    else (if |lines[0]| <= MAX_TRACE_LINE_BYTES then [lines[0]] else []) + Kept(lines[1..])
  }

  lemma {:induction false} TailIsOpen(s: seq<Byte>)
    ensures |Tail(s)| <= |s| && NoNewline(Tail(s))
    decreases |s|
  {
    if Find(s) < |s| {
      TailIsOpen(s[Find(s) + 1..]);
    } else {
      FindsFirst(s);
      assert s[..|s|] == s;
    }
  }

  function Clip(tail: seq<Byte>): seq<Byte> {
    if |tail| > MAX_TRACE_LINE_BYTES then [] else tail
  }

  /** A whole stream, split at once. */
  function Whole(s: seq<Byte>): (seq<Line>, seq<Byte>) {
    (Kept(Lines(s)), Clip(Tail(s)))
  }

  class TraceBuffer {
    var pending: seq<Byte>

    constructor ()
      ensures pending == []
    {
      pending := [];
    }

    /** complete_trace_lines. */
    method Complete(data: seq<Byte>) returns (lines: seq<Line>)
      modifies this
      ensures (lines, pending) == Whole(old(pending) + data)
      ensures NoNewline(pending) && |pending| <= MAX_TRACE_LINE_BYTES
      ensures forall i :: 0 <= i < |lines| ==> |lines[i]| <= MAX_TRACE_LINE_BYTES
    {
      hide Lines, Tail, Kept;
      pending := pending + data;
      lines := [];
      while true
        invariant lines + Kept(Lines(pending)) == Kept(Lines(old(pending) + data))
        invariant Tail(pending) == Tail(old(pending) + data)
        invariant forall i :: 0 <= i < |lines| ==> |lines[i]| <= MAX_TRACE_LINE_BYTES
        decreases |pending|
      {
        var end := Find(pending);
        NextLine(pending);
        if end == |pending| {
          assert lines + [] == lines;
          break;
        }
        if end <= MAX_TRACE_LINE_BYTES { lines := lines + [pending[..end]]; }
        pending := pending[end + 1..];
      }
      TailIsOpen(old(pending) + data);
      if |pending| > MAX_TRACE_LINE_BYTES { pending := []; }
    }
  }

  lemma {:induction false} NextLine(s: seq<Byte>)
    ensures var e := Find(s);
      if e == |s| then Kept(Lines(s)) == [] && Tail(s) == s
      else
        && Kept(Lines(s)) == (if e <= MAX_TRACE_LINE_BYTES then [s[..e]] else []) + Kept(Lines(s[e + 1..]))
        && Tail(s) == Tail(s[e + 1..])
  {
    hide Find, Lines, Tail, Kept;
    OneLine(s);
    var e := Find(s);
    if e == |s| { KeptOne([]); } else { NextKept(s[..e], Lines(s[e + 1..])); }
  }

  lemma {:induction false} NextKept(line: Line, rest: seq<Line>)
    ensures Kept([line] + rest) == (if |line| <= MAX_TRACE_LINE_BYTES then [line] else []) + Kept(rest)
  {
    hide Kept;
    KeptOne(line);
    KeptSplits([line], rest);
  }

  lemma {:induction false} OneLine(s: seq<Byte>)
    ensures var e := Find(s);
      if e == |s| then Lines(s) == [] && Tail(s) == s
      else Lines(s) == [s[..e]] + Lines(s[e + 1..]) && Tail(s) == Tail(s[e + 1..])
  {
    hide Find;
  }

  lemma {:induction false} KeptOne(line: Line)
    ensures Kept([line]) == (if |line| <= MAX_TRACE_LINE_BYTES then [line] else []) && Kept([]) == []
  {
    assert [line][1..] == [];
  }

  function Concat(chunks: seq<seq<Byte>>): seq<Byte> {
    if chunks == [] then [] else Concat(chunks[..|chunks| - 1]) + chunks[|chunks| - 1]
  }

  /** The lines of successive calls and the pending bytes after them. */
  function Chunked(chunks: seq<seq<Byte>>): (seq<Line>, seq<Byte>) {
    if chunks == [] then ([], [])
    else
      var before := Chunked(chunks[..|chunks| - 1]);
      var now := Whole(before.1 + chunks[|chunks| - 1]);
      (before.0 + now.0, now.1)
  }

  method Monitor(chunks: seq<seq<Byte>>) returns (lines: seq<Line>, pending: seq<Byte>)
    ensures (lines, pending) == Chunked(chunks)
  {
    var buffer := new TraceBuffer();
    lines := [];
    for i := 0 to |chunks|
      invariant fresh(buffer) && (lines, buffer.pending) == Chunked(chunks[..i])
    {
      var more := buffer.Complete(chunks[i]);
      assert chunks[..i + 1][..i] == chunks[..i];
      lines := lines + more;
    }
    assert chunks[..|chunks|] == chunks;
    return lines, buffer.pending;
  }

  // ------------------------------------------------------------- independence of chunking

  lemma {:induction false} SplitAnywhere(a: seq<Byte>, b: seq<Byte>)
    ensures Lines(a + b) == Lines(a) + Lines(Tail(a) + b) && Tail(a + b) == Tail(Tail(a) + b)
    decreases |a|
  {
    hide Find, Lines, Tail;
    var e := Find(a);
    OneLine(a);
    if e == |a| {
      assert [] + Lines(a + b) == Lines(a + b);
    } else {
      FindIn(a, b);
      OneLine(a + b);
      assert (a + b)[e + 1..] == a[e + 1..] + b && (a + b)[..e] == a[..e];
      SplitAnywhere(a[e + 1..], b);
    }
  }

  lemma {:induction false} KeptSplits(a: seq<Line>, b: seq<Line>)
    ensures Kept(a + b) == Kept(a) + Kept(b)
  {
    if a == [] {
      assert a + b == b;
    } else {
      assert (a + b)[1..] == a[1..] + b;
      KeptSplits(a[1..], b);
    }
  }

  /** Every terminated run fits, and the unterminated one exceeds the limit by a byte at most. */
  ghost predicate Short(s: seq<Byte>) {
    (forall line :: line in Lines(s) ==> |line| <= MAX_TRACE_LINE_BYTES) && |Tail(s)| <= MAX_TRACE_LINE_BYTES + 1
  }

  lemma ShortBefore(s: seq<Byte>, chunk: seq<Byte>)
    requires Short(s + chunk) && chunk != []
    ensures Short(s) && |Tail(s)| <= MAX_TRACE_LINE_BYTES
  {
    hide Find, Lines, Tail;
    SplitAnywhere(s, chunk);
    TailIsOpen(s);
    Unbroken(Tail(s));
    FindIn(Tail(s), chunk);
    var rest := Tail(s) + chunk;
    OneLine(rest);
    assert forall line :: line in Lines(s) ==> line in Lines(s + chunk);
    if Find(rest) < |rest| {
      assert Lines(rest)[0] in Lines(s + chunk);
    }
  }

  lemma {:induction false} ShortIsIndependent(chunks: seq<seq<Byte>>)
    requires Short(Concat(chunks))
    ensures Chunked(chunks) == Whole(Concat(chunks))
  {
    if chunks != [] {
      var front, chunk := chunks[..|chunks| - 1], chunks[|chunks| - 1];
      assert chunks == front + [chunk];
      OneChunk(front, chunk);
      hide Lines, Tail, Kept, Short, Whole, Chunked, Concat;
      if chunk == [] {
        assert Concat(front) + chunk == Concat(front);
        ShortIsIndependent(front);
        Idle(Concat(front));
        assert Whole(Concat(front)).0 + [] == Whole(Concat(front)).0;
      } else {
        ShortBefore(Concat(front), chunk);
        ShortIsIndependent(front);
        OneMore(Concat(front), chunk);
      }
    }
  }

  lemma OneMore(s: seq<Byte>, chunk: seq<Byte>)
    requires |Tail(s)| <= MAX_TRACE_LINE_BYTES
    ensures var now := Whole(Whole(s).1 + chunk); Whole(s + chunk) == (Whole(s).0 + now.0, now.1)
  {
    hide Lines, Tail, Kept;
    SplitAnywhere(s, chunk);
    KeptSplits(Lines(s), Lines(Tail(s) + chunk));
  }

  lemma Idle(s: seq<Byte>)
    ensures Whole(Whole(s).1 + []) == ([], Whole(s).1)
  {
    hide Find, Lines, Tail, Kept;
    var pending := Whole(s).1;
    assert pending + [] == pending;
    TailIsOpen(s);
    Unbroken(pending);
    KeptOne([]);
  }

  // --------------------------------------------------------------- and otherwise it is not

  /** The position of the newline that ends a line. */
  lemma {:induction false} LineAt(s: seq<Byte>, line: Line) returns (k: nat)
    requires line in Lines(s)
    ensures k < |s| && s[k] == NEWLINE && Tail(s[..k]) == line
    decreases |s|
  {
    hide Find, Lines, Tail;
    OneLine(s);
    var e := Find(s);
    if line == s[..e] {
      k := e;
      FindsFirst(s);
      Unbroken(s[..e]);
    } else {
      var n := LineAt(s[e + 1..], line);
      k := e + 1 + n;
      TailBeyond(s, n);
    }
  }

  lemma {:induction false} Unbroken(s: seq<Byte>)
    requires NoNewline(s)
    ensures Find(s) == |s| && Tail(s) == s && Lines(s) == []
  {
    hide Find, Lines, Tail;
    FindIs(s, |s|);
    OneLine(s);
  }

  lemma {:induction false} TailStep(s: seq<Byte>)
    requires Find(s) < |s|
    ensures Tail(s) == Tail(s[Find(s) + 1..])
  {
    hide Find;
  }

  lemma TailBeyond(s: seq<Byte>, n: nat)
    requires Find(s) + 1 + n <= |s|
    ensures Tail(s[..Find(s) + 1 + n]) == Tail(s[Find(s) + 1..][..n])
  {
    hide Find, Lines, Tail;
    var e := Find(s);
    var t := s[..e + 1 + n];
    FindPrefix(s, e + 1 + n);
    TailStep(t);
    assert t[e + 1..] == s[e + 1..][..n];
  }

  lemma TwoChunks(a: seq<Byte>, b: seq<Byte>)
    ensures Concat([a, b]) == a + b
    ensures var first := Whole(a); var second := Whole(first.1 + b); Chunked([a, b]) == (first.0 + second.0, second.1)
  {
    hide Whole;
    OneChunk([], a);
    OneChunk([a], b);
    assert [] + a == a && [] + Whole(a).0 == Whole(a).0;
    assert [] + [a] == [a] && [a] + [b] == [a, b];
  }

  lemma OneChunk(chunks: seq<seq<Byte>>, c: seq<Byte>)
    ensures Concat(chunks + [c]) == Concat(chunks) + c
    ensures var now := Whole(Chunked(chunks).1 + c); Chunked(chunks + [c]) == (Chunked(chunks).0 + now.0, now.1)
  {
    hide Whole;
    var all := chunks + [c];
    assert all[..|all| - 1] == chunks;
  }

  /** A terminated run over the limit: with its newline alone in the next chunk, the cleared
      bytes leave an empty line behind, which splitting at once drops. */
  lemma LongLineShows(a: seq<Byte>, b: seq<Byte>)
    requires |Tail(a)| > MAX_TRACE_LINE_BYTES && b != [] && b[0] == NEWLINE
    ensures Chunked([a, b]) != Whole(a + b)
  {
    AtOnce(a, b);
    InTwo(a, b);
  }

  lemma AtOnce(a: seq<Byte>, b: seq<Byte>)
    requires |Tail(a)| > MAX_TRACE_LINE_BYTES && b != [] && b[0] == NEWLINE
    ensures |Whole(a + b).0| == |Kept(Lines(a))| + |Kept(Lines(b[1..]))|
  {
    hide Find, Lines, Tail, Kept;
    SplitAnywhere(a, b);
    KeptSplits(Lines(a), Lines(Tail(a) + b));
    TailIsOpen(a);
    LongThenNewline(Tail(a), b);
  }

  lemma InTwo(a: seq<Byte>, b: seq<Byte>)
    requires |Tail(a)| > MAX_TRACE_LINE_BYTES && b != [] && b[0] == NEWLINE
    ensures |Chunked([a, b]).0| == |Kept(Lines(a))| + 1 + |Kept(Lines(b[1..]))|
  {
    hide Find, Lines, Tail, Kept, Chunked;
    TwoChunks(a, b);
    assert Whole(a).1 + b == b;
    NewlineFirst(b);
  }

  lemma NewlineFirst(b: seq<Byte>)
    requires b != [] && b[0] == NEWLINE
    ensures Find(b) == 0 && Kept(Lines(b)) == [[]] + Kept(Lines(b[1..]))
  {
    hide Find, Lines, Tail, Kept;
    FindIs(b, 0);
    NextLine(b);
    assert b[..0] == [];
  }

  lemma LongThenNewline(line: Line, b: seq<Byte>)
    requires NoNewline(line) && |line| > MAX_TRACE_LINE_BYTES && b != [] && b[0] == NEWLINE
    ensures Kept(Lines(line + b)) == Kept(Lines(b[1..]))
  {
    hide Find, Lines, Tail, Kept;
    NewlineFirst(b);
    Unbroken(line);
    FindIn(line, b);
    NextLine(line + b);
    assert (line + b)[|line| + 1..] == b[1..];
  }

  lemma NewlineLast(tail: seq<Byte>)
    requires NoNewline(tail)
    ensures Tail(tail + [NEWLINE]) == []
  {
    hide Find, Lines, Tail, Kept;
    var s := tail + [NEWLINE];
    FindIs(s, |tail|);
    TailStep(s);
    Unbroken([]);
    assert s[|tail| + 1..] == [];
  }

  /** An unterminated run more than a byte over the limit: its last byte alone survives. */
  lemma LongTailShows(s: seq<Byte>)
    requires s != [] && |Tail(s)| > MAX_TRACE_LINE_BYTES + 1
    ensures Chunked([s[..|s| - 1], s[|s| - 1..]]) != Whole(s)
  {
    hide Find, Lines, Tail, Kept;
    var k := |s| - 1;
    var a, b := s[..k], s[k..];
    assert s == a + b;
    SplitAnywhere(a, b);
    TwoChunks(a, b);
    TailIsOpen(a);
    TailIsOpen(Tail(a) + b);
    NewlineLast(Tail(a));
    assert b == [s[k]];
    Unbroken(b);
    assert Whole(a).1 == [];
    assert Whole(a).1 + b == b;
  }

  /** How exactly framing depends on the chunks: not at all if and only if every run is short. */
  lemma IndependentIffShort(s: seq<Byte>)
    ensures Short(s) <==> forall chunks :: Concat(chunks) == s ==> Chunked(chunks) == Whole(s)
  {
    hide Lines, Tail, Whole, Chunked, Concat;
    if Short(s) {
      forall chunks | Concat(chunks) == s ensures Chunked(chunks) == Whole(s) { ShortIsIndependent(chunks); }
    } else {
      var k: int;
      if line :| line in Lines(s) && |line| > MAX_TRACE_LINE_BYTES {
        k := LineAt(s, line);
        assert s == s[..k] + s[k..];
        LongLineShows(s[..k], s[k..]);
      } else {
        TailIsOpen(s);
        k := |s| - 1;
        LongTailShows(s);
      }
      TwoChunks(s[..k], s[k..]);
      assert s[..k] + s[k..] == s;
    }
  }
}
