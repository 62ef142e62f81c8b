/** OwnTone's outputs and the lookups the bridge makes in them. */
module OwnTone {
  import opened Prelude

  /** An entry of GET /outputs; a missing or malformed field is None. */
  datatype Output = Output(id: Option<string>, name: string, kind: string, selected: bool, volume: Option<int>,
    offset: Option<int>)

  datatype Config = Config(localName: string, wiimName: string, localVolume: int, wiimVolume: int,
                           localOffset: int, wiimOffset: int, guarded: bool)

  const LOCAL_TYPE := "AirPlay 1"
  const WIIM_TYPE := "AirPlay 2"
  const VOLUME_RANGE := (0, 100)
  const OFFSET_RANGE_MS := (-2000, 2000)

  /** What configuration validation guarantees. */
  predicate ValidConfig(c: Config) {
    && VOLUME_RANGE.0 <= c.localVolume <= VOLUME_RANGE.1 && VOLUME_RANGE.0 <= c.wiimVolume <= VOLUME_RANGE.1
    && OFFSET_RANGE_MS.0 <= c.localOffset <= OFFSET_RANGE_MS.1 && OFFSET_RANGE_MS.0 <= c.wiimOffset <= OFFSET_RANGE_MS.1
  }

  // ------------------------------------------------------------------------- lookups

  predicate Matches(o: Output, name: string, kind: string) { o.name == name && o.kind == kind }

  function Matching(items: seq<Output>, name: string, kind: string): (r: seq<Output>)
    ensures forall o :: o in r <==> o in items && Matches(o, name, kind)
    ensures |r| <= |items|
  {
    if items == [] then []
    else
      var rest := Matching(items[1..], name, kind);
      if Matches(items[0], name, kind) then [items[0]] + rest else rest
  }

  /** find_output: exactly one match, and it has an id. */
  function FindOutput(items: seq<Output>, name: string, kind: string): (r: Answer<Output>)
    ensures r.Got? ==> r.value in items && Matches(r.value, name, kind) && r.value.id.Some?
  {
    var matches := Matching(items, name, kind);
    if |matches| == 1 && matches[0].id.Some? then Got(matches[0]) else Raised
  }

  function LocalOutput(items: seq<Output>, c: Config): Answer<Output> { FindOutput(items, c.localName, LOCAL_TYPE) }
  function WiimOutput(items: seq<Output>, c: Config): Answer<Output> { FindOutput(items, c.wiimName, WIIM_TYPE) }

  function ResolvePair(items: seq<Output>, c: Config): (r: Answer<(Output, Output)>)
    ensures r.Got? ==> r.value.0.id.Some? && r.value.1.id.Some? && r.value.0.id != r.value.1.id
  {
    match (LocalOutput(items, c), WiimOutput(items, c))
    case (Got(l), Got(w)) => if l.id == w.id then Raised else Got((l, w))
    case (_, _) => Raised
  }

  /** The ids of the selected outputs; an entry without an id makes the comprehension raise. */
  function SelectedIds(items: seq<Output>): (r: Answer<set<string>>)
    ensures r.Got? ==> forall id :: id in r.value <==>
      exists i :: 0 <= i < |items| && items[i].selected && items[i].id == Some(id)
  {
    if items == [] then Got({})
    else
      match SelectedIds(items[1..])
      case Raised => Raised
      case Got(rest) =>
        if !items[0].selected then Got(rest)
        else if items[0].id.None? then Raised
        else Got({items[0].id.value} + rest)
  }

  // -------------------------------------------------------------------------- effects

  /** What a selection may do to the levels of an output it newly selects. */
  type Reset = string -> Option<(int, int)>

  function SelectOne(o: Output, ids: seq<string>, reset: Reset): Output {
    var on := o.id.Some? && o.id.value in ids;
    if on && !o.selected && reset(o.id.value).Some? then
      o.(selected := true, volume := Some(reset(o.id.value).value.0), offset := Some(reset(o.id.value).value.1))
    else o.(selected := on)
  }

  function ApplySelect(items: seq<Output>, ids: seq<string>, reset: Reset): (r: seq<Output>)
    ensures |r| == |items| && forall i :: 0 <= i < |items| ==> r[i] == SelectOne(items[i], ids, reset)
  {
    seq(|items|, i requires 0 <= i < |items| => SelectOne(items[i], ids, reset))
  }

  function ApplyVolume(items: seq<Output>, id: string, volume: int): (r: seq<Output>)
    ensures |r| == |items|
    ensures forall i :: 0 <= i < |items| ==>
      r[i] == if items[i].id == Some(id) then items[i].(volume := Some(volume)) else items[i]
  {
    seq(|items|, i requires 0 <= i < |items| => if items[i].id == Some(id) then items[i].(volume := Some(volume))
      else items[i])
  }

  function ApplyOffset(items: seq<Output>, id: string, ms: int): (r: seq<Output>)
    ensures |r| == |items|
    ensures forall i :: 0 <= i < |items| ==>
      r[i] == if items[i].id == Some(id) then items[i].(offset := Some(ms)) else items[i]
  {
    seq(|items|, i requires 0 <= i < |items| => if items[i].id == Some(id) then items[i].(offset := Some(ms))
      else items[i])
  }

  // ------------------------------------------------------------------------- identity

  /** The same outputs, whatever their selection and levels. */
  predicate SameOutputs(a: seq<Output>, b: seq<Output>) {
    |a| == |b| && forall i :: 0 <= i < |a| ==> a[i].id == b[i].id && a[i].name == b[i].name && a[i].kind == b[i].kind
  }

  /** The position of the only output with that name and type, when it also has an id. */
  predicate UniqueAt(items: seq<Output>, name: string, kind: string, i: int) {
    && 0 <= i < |items| && Matches(items[i], name, kind) && items[i].id.Some?
    && forall j :: 0 <= j < |items| && Matches(items[j], name, kind) ==> j == i
  }

  lemma {:induction false} NoMatch(items: seq<Output>, name: string, kind: string)
    requires forall j :: 0 <= j < |items| ==> !Matches(items[j], name, kind)
    ensures Matching(items, name, kind) == []
  {
    if items != [] { NoMatch(items[1..], name, kind); }
  }

  /** find_output succeeds exactly on a unique match with an id, and returns that entry. */
  lemma {:induction false} FindsTheUnique(items: seq<Output>, name: string, kind: string, i: int)
    requires UniqueAt(items, name, kind, i)
    ensures FindOutput(items, name, kind) == Got(items[i]) && Matching(items, name, kind) == [items[i]]
  {
    var rest := items[1..];
    if i == 0 {
      forall j | 0 <= j < |rest| ensures !Matches(rest[j], name, kind) { assert rest[j] == items[j + 1]; }
      NoMatch(rest, name, kind);
    } else {
      forall j | 0 <= j < |rest| && Matches(rest[j], name, kind) ensures j == i - 1 { assert rest[j] == items[j + 1]; }
      FindsTheUnique(rest, name, kind, i - 1);
    }
  }

  lemma {:induction false} UniqueIfFound(items: seq<Output>, name: string, kind: string) returns (i: int)
    requires FindOutput(items, name, kind).Got?
    ensures UniqueAt(items, name, kind, i) && FindOutput(items, name, kind) == Got(items[i])
  {
    var rest := items[1..];
    if Matches(items[0], name, kind) {
      i := 0;
      assert Matching(rest, name, kind) == [] by {
        assert Matching(items, name, kind) == [items[0]] + Matching(rest, name, kind);
      }
      forall j | 1 <= j < |items| ensures !Matches(items[j], name, kind) {
        assert rest[j - 1] == items[j] && rest[j - 1] in rest;
      }
    } else {
      var k := UniqueIfFound(rest, name, kind);
      i := k + 1;
      forall j | 0 <= j < |items| && Matches(items[j], name, kind) ensures j == i {
        assert j > 0 && rest[j - 1] == items[j];
      }
    }
  }

  /** Selections and level writes leave every lookup with the same answer, up to levels. */
  lemma SameLookup(a: seq<Output>, b: seq<Output>, name: string, kind: string)
    requires SameOutputs(a, b) && FindOutput(a, name, kind).Got?
    ensures FindOutput(b, name, kind).Got? && FindOutput(b, name, kind).value.id == FindOutput(a, name, kind).value.id
  {
    var i := UniqueIfFound(a, name, kind);
    assert UniqueAt(b, name, kind, i);
    FindsTheUnique(b, name, kind, i);
  }

  lemma SamePair(a: seq<Output>, b: seq<Output>, c: Config)
    requires SameOutputs(a, b) && ResolvePair(a, c).Got?
    ensures ResolvePair(b, c).Got?
    ensures ResolvePair(b, c).value.0.id == ResolvePair(a, c).value.0.id
    ensures ResolvePair(b, c).value.1.id == ResolvePair(a, c).value.1.id
  {
    SameLookup(a, b, c.localName, LOCAL_TYPE);
    SameLookup(a, b, c.wiimName, WIIM_TYPE);
  }

  lemma {:induction false} SelectedReadable(items: seq<Output>)
    ensures SelectedIds(items).Got? <==> forall i :: 0 <= i < |items| && items[i].selected ==> items[i].id.Some?
  {
    if items != [] {
      SelectedReadable(items[1..]);
      assert forall i :: 1 <= i < |items| ==> items[i] == items[1..][i - 1];
    }
  }

  /** After a selection took effect, exactly the known ids of it are selected. */
  lemma SelectionTakes(items: seq<Output>, ids: seq<string>, reset: Reset)
    requires forall id :: id in ids ==> exists i :: 0 <= i < |items| && items[i].id == Some(id)
    ensures SelectedIds(ApplySelect(items, ids, reset)) == Got(set id | id in ids)
  {
    var r := ApplySelect(items, ids, reset);
    SelectedReadable(r);
    var got := SelectedIds(r).value;
    forall id ensures id in got <==> id in ids {
      if id in ids {
        var i :| 0 <= i < |items| && items[i].id == Some(id);
        assert r[i].selected && r[i].id == Some(id);
      }
    }
    assert got == set id | id in ids;
  }
}
