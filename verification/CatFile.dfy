/** scripts/check-secrets.py, blob_contents: reading the output of `git cat-file --batch`. */
module CatFile {
  import opened Prelude
  import opened Bytes

  const SPACE: Byte := 32

  predicate White(b: Byte) { b == SPACE || 9 <= b <= 13 }

  predicate Ascii(s: seq<Byte>) { forall i :: 0 <= i < |s| ==> s[i] < 128 }

  /** The first position that is (or is not) white space, or the length. */
  function Skip(s: seq<Byte>, white: bool): (e: nat)
    ensures e <= |s| && (forall i :: 0 <= i < e ==> White(s[i]) == white) && (e < |s| ==> White(s[e]) != white)
  {
    if s == [] || White(s[0]) != white then 0 else 1 + Skip(s[1..], white)
  }

  /** bytes.split(): the maximal runs without white space. */
  function Tokens(s: seq<Byte>): seq<seq<Byte>>
    decreases |s|
  {
    var t := s[Skip(s, true)..];
    if t == [] then []
    else
      var n := Skip(t, false);
      [t[..n]] + Tokens(t[n..])
  }

  function DigitByte(d: nat): Byte
    requires d < 10
  {
    match d
    case 0 => 48 case 1 => 49 case 2 => 50 case 3 => 51 case 4 => 52
    case 5 => 53 case 6 => 54 case 7 => 55 case 8 => 56 case _ => 57
  }

  function DigitOf(b: Byte): Option<nat> {
    if b == 48 then Some(0) else if b == 49 then Some(1) else if b == 50 then Some(2) else if b == 51 then Some(3)
    else if b == 52 then Some(4) else if b == 53 then Some(5) else if b == 54 then Some(6) else if b == 55 then Some(7)
    else if b == 56 then Some(8) else if b == 57 then Some(9) else None
  }

  const PLUS: Byte := 43
  const MINUS: Byte := 45
  const UNDERSCORE: Byte := 95

  /** Decimal digits, with single underscores between them. */
  function Decimal(s: seq<Byte>): Option<nat> {
    if s == [] then None
    else
      var last := |s| - 1;
      var end := if last > 0 && s[last - 1] == UNDERSCORE then last - 1 else last;
      var front := if last == 0 then Some(0) else Decimal(s[..end]);
      if front.Some? && DigitOf(s[last]).Some? then Some(10 * front.value + DigitOf(s[last]).value) else None
  }

  /** int(): an optional sign before the digits. A negative number is None here. */
  function Number(s: seq<Byte>): Option<nat> {
    if s == [] then None
    else if s[0] == PLUS then Decimal(s[1..])
    else if s[0] == MINUS then if Decimal(s[1..]) == Some(0) then Some(0) else None
    else Decimal(s)
  }

  function Min(a: nat, b: nat): (r: nat)
    ensures r <= a && r <= b && (r == a || r == b)
  {
    if a <= b then a else b
  }

  /** What is read from the rest of the stream, on top of what was read before. */
  function Parse(s: seq<Byte>, contents: map<seq<Byte>, seq<Byte>>): Answer<map<seq<Byte>, seq<Byte>>>
    decreases |s|
  {
    var e := Find(s);
    if e == |s| then Got(contents)
    else
      var header, rest := Tokens(s[..e]), s[e + 1..];
      if |header| != 3 then Parse(rest, contents)
      else if !Ascii(header[0]) || Number(header[2]).None? then Raised
      else
        var size := Number(header[2]).value;
        Parse(rest[Min(size + 1, |rest|)..], contents[header[0] := rest[..Min(size, |rest|)]])
  }

  /** blob_contents, from the output of git on. */
  method BlobContents(stream: seq<Byte>) returns (r: Answer<map<seq<Byte>, seq<Byte>>>)
    ensures r == Parse(stream, map[])
  {
    hide Find, Tokens, Number, Parse, Ascii;
    var contents: map<seq<Byte>, seq<Byte>> := map[];
    var offset := 0;
    assert stream[0..] == stream;
    while offset < |stream|
      invariant Parse(stream[Min(offset, |stream|)..], contents) == Parse(stream, map[])
      decreases |stream| - offset
    {
      ghost var s := stream[offset..];
      var newline := offset + Find(stream[offset..]);
      NextRecord(s, contents);
      if newline == |stream| { return Got(contents); }
      var header := Tokens(stream[offset..newline]);
      assert stream[offset..newline] == s[..Find(s)] && stream[newline + 1..] == s[Find(s) + 1..];
      offset := newline + 1;
      if |header| != 3 { continue; }
      if !Ascii(header[0]) || Number(header[2]).None? { return Raised; }
      var size := Number(header[2]).value;
      TakeSlice(stream, offset, size);
      contents := contents[header[0] := stream[offset..Min(offset + size, |stream|)]];
      offset := offset + size + 1;
    }
    NothingLeft(contents);
    assert stream[Min(offset, |stream|)..] == [];
    return Got(contents);
  }

  lemma TakeSlice(stream: seq<Byte>, offset: nat, size: nat)
    requires offset <= |stream|
    ensures var rest := stream[offset..];
      && stream[offset..Min(offset + size, |stream|)] == rest[..Min(size, |rest|)]
      && stream[Min(offset + size + 1, |stream|)..] == rest[Min(size + 1, |rest|)..]
  {}

  lemma NothingLeft(contents: map<seq<Byte>, seq<Byte>>)
    ensures Parse([], contents) == Got(contents)
  {}

  /** One turn of the loop. */
  lemma NextRecord(s: seq<Byte>, contents: map<seq<Byte>, seq<Byte>>)
    ensures var e := Find(s);
      Parse(s, contents)
        == if e == |s| then Got(contents)
           else
             var header, rest := Tokens(s[..e]), s[e + 1..];
             if |header| != 3 then Parse(rest, contents)
             else if !Ascii(header[0]) || Number(header[2]).None? then Raised
             else Parse(rest[Min(Number(header[2]).value + 1, |rest|)..],
                        contents[header[0] := rest[..Min(Number(header[2]).value, |rest|)]])
  {
    hide Find, Tokens, Number, Ascii, Min;
  }

  // ------------------------------------------------------------------ what git prints

  /** One answer of git: an object with its type and content, or a name it does not know. */
  datatype Record = Blob(sha: seq<Byte>, kind: seq<Byte>, content: seq<Byte>) | Missing(name: seq<Byte>)

  function Digits(n: nat): (r: seq<Byte>)
    ensures r != []
  {
    if n < 10 then [DigitByte(n)] else Digits(n / 10) + [DigitByte(n % 10)]
  }

  const MISSING: seq<Byte> := [109, 105, 115, 115, 105, 110, 103]

  function Printed(r: Record): seq<Byte> {
    match r
    case Blob(sha, kind, content) =>
      sha + [SPACE] + kind + [SPACE] + Digits(|content|) + [NEWLINE] + content + [NEWLINE]
    case Missing(name) => name + [SPACE] + MISSING + [NEWLINE]
  }

  function PrintedAll(rs: seq<Record>): seq<Byte> {
    if rs == [] then [] else Printed(rs[0]) + PrintedAll(rs[1..])
  }

  predicate Word(s: seq<Byte>) { s != [] && forall i :: 0 <= i < |s| ==> !White(s[i]) }

  /** Names and types are words, and shas are ASCII; the content is any bytes at all. */
  predicate WellFormed(r: Record) {
    match r
    case Blob(sha, kind, _) => Word(sha) && Ascii(sha) && Word(kind)
    case Missing(name) => Word(name)
  }

  /** The last content printed for each sha. */
  function Meaning(rs: seq<Record>, contents: map<seq<Byte>, seq<Byte>>): map<seq<Byte>, seq<Byte>> {
    if rs == [] then contents
    else Meaning(rs[1..], if rs[0].Blob? then contents[rs[0].sha := rs[0].content] else contents)
  }

  // ---------------------------------------------------------------------- round trip

  lemma DigitRead(d: nat)
    requires d < 10
    ensures DigitOf(DigitByte(d)) == Some(d) && !White(DigitByte(d))
  {}

  lemma NumberPush(front: seq<Byte>, d: nat)
    requires front != [] && Decimal(front).Some? && d < 10
    ensures Decimal(front + [DigitByte(d)]) == Some(10 * Decimal(front).value + d)
  {
    DigitRead(d);
    NoUnderscoreLast(front);
    hide DigitOf, DigitByte;
    var s := front + [DigitByte(d)];
    assert s[..|s| - 1] == front;
  }

  lemma NoUnderscoreLast(s: seq<Byte>)
    requires Decimal(s).Some?
    ensures s != [] && s[|s| - 1] != UNDERSCORE
  {}

  lemma OneDigit(d: nat)
    requires d < 10
    ensures Decimal([DigitByte(d)]) == Some(d) && Word([DigitByte(d)]) && DigitByte(d) != PLUS && DigitByte(d) != MINUS
  {
    DigitRead(d);
  }

  lemma NumberOfDigits(n: nat)
    ensures Number(Digits(n)) == Some(n) && Word(Digits(n))
  {
    hide Decimal, Digits;
    DecimalOfDigits(n);
  }

  lemma {:induction false} DecimalOfDigits(n: nat)
    ensures Decimal(Digits(n)) == Some(n) && Word(Digits(n)) && Digits(n)[0] != PLUS && Digits(n)[0] != MINUS
  {
    hide Decimal, DigitByte;
    if n < 10 {
      OneDigit(n);
    } else {
      DecimalOfDigits(n / 10);
      NumberPush(Digits(n / 10), n % 10);
      DigitRead(n % 10);
    }
  }

  lemma {:induction false} SkipIs(s: seq<Byte>, white: bool, e: nat)
    requires e <= |s| && (forall i :: 0 <= i < e ==> White(s[i]) == white) && (e < |s| ==> White(s[e]) != white)
    ensures Skip(s, white) == e
  {
    if e > 0 { SkipIs(s[1..], white, e - 1); }
  }

  lemma WordSkips(w: seq<Byte>, rest: seq<Byte>)
    requires Word(w) && (rest == [] || White(rest[0]))
    ensures Skip(w + rest, true) == 0 && Skip(w + rest, false) == |w|
  {
    hide Skip;
    SkipIs(w + rest, true, 0);
    SkipIs(w + rest, false, |w|);
  }

  lemma WordFirst(w: seq<Byte>, rest: seq<Byte>)
    requires Word(w) && (rest == [] || White(rest[0]))
    ensures Tokens(w + rest) == [w] + Tokens(rest)
  {
    WordSkips(w, rest);
    hide Skip;
    var s := w + rest;
    assert s[0..] == s && s[..|w|] == w && s[|w|..] == rest;
  }

  lemma SpaceFirst(s: seq<Byte>)
    ensures Tokens([SPACE] + s) == Tokens(s)
  {
    var t := [SPACE] + s;
    assert t[1..] == s;
    assert Skip(t, true) == 1 + Skip(s, true);
    assert t[1 + Skip(s, true)..] == s[Skip(s, true)..];
  }

  lemma NoTokens()
    ensures Tokens([]) == []
  {}

  lemma ThreeWords(a: seq<Byte>, b: seq<Byte>, c: seq<Byte>)
    requires Word(a) && Word(b) && Word(c)
    ensures Tokens(a + [SPACE] + b + [SPACE] + c) == [a, b, c]
  {
    hide Tokens, Skip;
    TwoWords(b, c);
    WordFirst(a, [SPACE] + (b + [SPACE] + c));
    SpaceFirst(b + [SPACE] + c);
    assert a + [SPACE] + b + [SPACE] + c == a + ([SPACE] + (b + [SPACE] + c));
  }

  lemma TwoWords(a: seq<Byte>, b: seq<Byte>)
    requires Word(a) && Word(b)
    ensures Tokens(a + [SPACE] + b) == [a, b]
  {
    NoTokens();
    hide Tokens, Skip;
    WordFirst(b, []);
    assert b + [] == b;
    WordFirst(a, [SPACE] + b);
    SpaceFirst(b);
    assert a + [SPACE] + b == a + ([SPACE] + b);
  }

  lemma HeaderEnds(h: seq<Byte>, rest: seq<Byte>)
    requires NoNewline(h)
    ensures Find(h + [NEWLINE] + rest) == |h|
  {
    hide Find;
    FindIs(h + [NEWLINE] + rest, |h|);
  }

  /** One printed record is read as itself, whatever follows. */
  lemma OneRecord(r: Record, rest: seq<Byte>, contents: map<seq<Byte>, seq<Byte>>)
    requires WellFormed(r)
    ensures Parse(Printed(r) + rest, contents)
            == Parse(rest, if r.Blob? then contents[r.sha := r.content] else contents)
  {
    hide Find, Tokens, Number, Digits, Parse;
    var s := Printed(r) + rest;
    match r
    case Blob(sha, kind, content) =>
      NumberOfDigits(|content|);
      ThreeWords(sha, kind, Digits(|content|));
      BlobRead(sha + [SPACE] + kind + [SPACE] + Digits(|content|), sha, kind, content, rest, contents);
      assert s == sha + [SPACE] + kind + [SPACE] + Digits(|content|) + [NEWLINE] + (content + [NEWLINE] + rest);
    case Missing(name) =>
      assert Word(MISSING);
      TwoWords(name, MISSING);
      SkippedLine(name + [SPACE] + MISSING, rest, contents);
      assert s == name + [SPACE] + MISSING + [NEWLINE] + rest;
  }

  lemma SkippedLine(h: seq<Byte>, rest: seq<Byte>, contents: map<seq<Byte>, seq<Byte>>)
    requires NoNewline(h) && |Tokens(h)| != 3
    ensures Parse(h + [NEWLINE] + rest, contents) == Parse(rest, contents)
  {
    hide Find, Tokens;
    HeaderEnds(h, rest);
    var s := h + [NEWLINE] + rest;
    assert s[..|h|] == h && s[|h| + 1..] == rest;
  }

  lemma BlobRead(h: seq<Byte>, sha: seq<Byte>, kind: seq<Byte>, content: seq<Byte>, rest: seq<Byte>,
                 contents: map<seq<Byte>, seq<Byte>>)
    requires NoNewline(h) && Ascii(sha) && Tokens(h) == [sha, kind, Digits(|content|)]
    ensures Parse(h + [NEWLINE] + (content + [NEWLINE] + rest), contents) == Parse(rest, contents[sha := content])
  {
    hide Find, Tokens, Number, Digits;
    NumberOfDigits(|content|);
    var after := content + [NEWLINE] + rest;
    HeaderEnds(h, after);
    var s := h + [NEWLINE] + after;
    assert s[..|h|] == h && s[|h| + 1..] == after;
    assert after[..|content|] == content && after[|content| + 1..] == rest;
  }

  /** The parser undoes the printer, whatever the contents are and even if they look like
      headers; missing objects leave no trace. */
  lemma {:induction false} RoundTrip(rs: seq<Record>, contents: map<seq<Byte>, seq<Byte>>)
    requires forall r :: r in rs ==> WellFormed(r)
    ensures Parse(PrintedAll(rs), contents) == Got(Meaning(rs, contents))
  {
    hide Printed, Parse, WellFormed;
    if rs == [] {
      NothingLeft(contents);
    } else {
      OneRecord(rs[0], PrintedAll(rs[1..]), contents);
      RoundTrip(rs[1..], if rs[0].Blob? then contents[rs[0].sha := rs[0].content] else contents);
    }
  }

  predicate LastFor(rs: seq<Record>, sha: seq<Byte>, i: int) {
    && 0 <= i < |rs| && rs[i].Blob? && rs[i].sha == sha
    && forall j :: i < j < |rs| && rs[j].Blob? ==> rs[j].sha != sha
  }

  /** Exactly the printed objects are read, each with the content printed last for it. */
  lemma {:induction false} MeaningIs(rs: seq<Record>, contents: map<seq<Byte>, seq<Byte>>, sha: seq<Byte>)
    ensures sha in Meaning(rs, contents) <==>
      sha in contents || exists i :: 0 <= i < |rs| && rs[i].Blob? && rs[i].sha == sha
    ensures forall i :: LastFor(rs, sha, i) ==> Meaning(rs, contents)[sha] == rs[i].content
  {
    if rs != [] {
      var next := if rs[0].Blob? then contents[rs[0].sha := rs[0].content] else contents;
      MeaningIs(rs[1..], next, sha);
      assert forall i :: 0 < i < |rs| ==> rs[i] == rs[1..][i - 1];
      forall i | LastFor(rs, sha, i) && i > 0 ensures LastFor(rs[1..], sha, i - 1) {}
      NotLater(rs[1..], next, sha);
    }
  }

  lemma {:induction false} NotLater(rs: seq<Record>, contents: map<seq<Byte>, seq<Byte>>, sha: seq<Byte>)
    ensures sha in contents && (forall j :: 0 <= j < |rs| && rs[j].Blob? ==> rs[j].sha != sha) ==>
      sha in Meaning(rs, contents) && Meaning(rs, contents)[sha] == contents[sha]
  {
    if rs != [] {
      var next := if rs[0].Blob? then contents[rs[0].sha := rs[0].content] else contents;
      NotLater(rs[1..], next, sha);
    }
  }
}
