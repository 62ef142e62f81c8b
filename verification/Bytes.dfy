/** Byte strings. */
module Bytes {
  type Byte = bv8

  const NEWLINE: Byte := 10

  /** The position of the first newline, or the length. */
  function Find(s: seq<Byte>): (e: nat)
    ensures e <= |s| && (e < |s| ==> s[e] == NEWLINE)
  {
    if s == [] || s[0] == NEWLINE then 0 else 1 + Find(s[1..])
  }

  predicate NoNewline(s: seq<Byte>) { forall i :: 0 <= i < |s| ==> s[i] != NEWLINE }

  lemma {:induction false} FindsFirst(s: seq<Byte>)
    ensures NoNewline(s[..Find(s)])
  {
    if s != [] && s[0] != NEWLINE {
      FindsFirst(s[1..]);
      assert s[..Find(s)] == [s[0]] + s[1..][..Find(s[1..])];
    }
  }

  lemma {:induction false} FindIs(s: seq<Byte>, e: nat)
    requires e <= |s| && (forall i :: 0 <= i < e ==> s[i] != NEWLINE) && (e < |s| ==> s[e] == NEWLINE)
    ensures Find(s) == e
  {
    if e > 0 { FindIs(s[1..], e - 1); }
  }

  lemma FindIn(a: seq<Byte>, b: seq<Byte>)
    ensures Find(a) < |a| ==> Find(a + b) == Find(a)
    ensures Find(a) == |a| ==> Find(a + b) == |a| + Find(b)
  {
    hide Find;
    FindsFirst(a);
    FindsFirst(b);
    assert forall i :: 0 <= i < Find(a) ==> a[i] == a[..Find(a)][i];
    assert forall i :: 0 <= i < Find(b) ==> b[i] == b[..Find(b)][i];
    FindIs(a + b, if Find(a) < |a| then Find(a) else |a| + Find(b));
  }

  lemma FindPrefix(s: seq<Byte>, m: nat)
    requires Find(s) < m <= |s|
    ensures Find(s[..m]) == Find(s)
  {
    hide Find;
    FindsFirst(s);
    assert forall i :: 0 <= i < Find(s) ==> s[..m][i] == s[..Find(s)][i];
    FindIs(s[..m], Find(s));
  }
}
