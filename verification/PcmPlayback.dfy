/** bridge.resume_pcm_playback and pause_pcm_playback, against arbitrary OwnTone answers. */
module PcmPlayback {
  import opened Prelude

  datatype PlayState = Playing | Paused | Stopped | Unknown

  /** GET /player: an answer that is no object, or names no known state, is Unknown. */
  datatype PlayerInfo = PlayerInfo(state: PlayState, itemId: Option<string>)

  /** A queue entry: its id as text, and whether it is exactly the bridge's pipe. */
  datatype QueueItem = NotAnObject | QueueItem(id: string, bridgePipe: bool)

  datatype Call =
    | SawPlayer(info: PlayerInfo)
    | SawQueue(items: seq<QueueItem>)
    | SawTracks(exact: nat)          // library entries that are exactly the bridge's pipe
    | Play
    | Pause
    | Add

  /** What the environment answers to one request, and whether the deadline of a polling loop
      has passed by then. */
  datatype Reply = Reply(fails: bool, player: PlayerInfo, queue: Option<seq<QueueItem>>, tracks: Option<seq<bool>>,
    late: bool)

  predicate IsWrite(c: Call) { c.Play? || c.Pause? || c.Add? }

  function Writes(calls: seq<Call>): nat {
    if calls == [] then 0 else Writes(calls[..|calls| - 1]) + if IsWrite(calls[|calls| - 1]) then 1 else 0
  }

  function Text(id: Option<string>): string {
    match id case None => "None" case Some(s) => s
  }

  /** The queue entries taken as the current item when resuming; without an item id, a queue
      of one entry stands for it. */
  function Current(items: seq<QueueItem>, id: Option<string>, sole: bool): (r: seq<QueueItem>)
    ensures forall q :: q in r ==> q in items && q.QueueItem? && (q.id == Text(id) || sole)
  {
    if items == [] then []
    else
      var rest := Current(items[1..], id, sole);
      if items[0].QueueItem? && (items[0].id == Text(id) || sole) then [items[0]] + rest else rest
  }

  function CurrentToResume(items: seq<QueueItem>, id: Option<string>): seq<QueueItem> {
    Current(items, id, id.None? && |items| == 1)
  }

  function CurrentToPause(items: seq<QueueItem>, id: Option<string>): seq<QueueItem> {
    Current(items, id, false)
  }

  predicate ExactlyThePipe(current: seq<QueueItem>) {
    |current| == 1 && current[0].QueueItem? && current[0].bridgePipe
  }

  function CountTrue(flags: seq<bool>): nat {
    if flags == [] then 0 else CountTrue(flags[1..]) + if flags[0] then 1 else 0
  }

  predicate Halted(s: PlayState) { s == Paused || s == Stopped }

  /** Everything the calls of one resume may be. */
  predicate ResumeRules(t: seq<Call>) {
    && Writes(t) <= 1
    && (forall i :: 0 <= i < |t| ==> !t[i].Pause?)
    && (forall i :: 0 <= i < |t| && t[i].Play? ==>
          && i == 2 && t[0].SawPlayer? && Halted(t[0].info.state) && t[1].SawQueue?
          && t[1].items != [] && ExactlyThePipe(CurrentToResume(t[1].items, t[0].info.itemId)))
    && (forall i :: 0 <= i < |t| && t[i].Add? ==>
          && i == 3 && t[0].SawPlayer? && Halted(t[0].info.state) && t[1] == SawQueue([]) && t[2] == SawTracks(1))
  }

  /** What the result of a resume says about its calls. */
  predicate ResumeMeans(t: seq<Call>, r: Answer<bool>) {
    && (r == Got(false) ==> |t| == 1 && t[0].SawPlayer? && t[0].info.state == Playing)
    && (r == Got(true) ==>
          && Writes(t) == 1 && t[|t| - 1].SawPlayer? && t[|t| - 1].info.state == Playing
          && (Add in t ==> |t| > 4 && t[4].SawQueue? && ExactlyThePipe(t[4].items)))
  }

  predicate PauseRules(t: seq<Call>, r: Answer<bool>) {
    && Writes(t) <= 1
    && (forall i :: 0 <= i < |t| ==> !t[i].Play? && !t[i].Add?)
    && (forall i :: 0 <= i < |t| && t[i].Pause? ==>
          && i == 2 && t[0].SawPlayer? && t[0].info.state == Playing && t[1].SawQueue?
          && ExactlyThePipe(CurrentToPause(t[1].items, t[0].info.itemId)))
    && (r == Got(false) ==> |t| == 1 && t[0].SawPlayer? && Halted(t[0].info.state))
    && (r == Got(true) ==> |t| == 4 && t[2].Pause? && t[3].SawPlayer? && t[3].info.state == Paused)
  }

  // ------------------------------------- what the answers, from the k-th on, decide

  predicate Reads(replies: nat -> Reply, k: nat, state: PlayState) {
    !replies(k).fails && replies(k).player.state == state
  }

  predicate ReadsHalted(replies: nat -> Reply, k: nat) {
    Reads(replies, k, Paused) || Reads(replies, k, Stopped)
  }

  predicate ReadsQueue(replies: nat -> Reply, k: nat) { !replies(k).fails && replies(k).queue.Some? }

  /** A halted player over a queue whose one current item is the bridge's pipe. */
  predicate MayPlay(replies: nat -> Reply, k: nat) {
    && ReadsHalted(replies, k) && ReadsQueue(replies, k + 1)
    && replies(k + 1).queue.value != []
    && ExactlyThePipe(CurrentToResume(replies(k + 1).queue.value, replies(k).player.itemId))
  }

  /** A halted player, an empty queue, and the pipe in the library exactly once. */
  predicate MayAdd(replies: nat -> Reply, k: nat) {
    && ReadsHalted(replies, k) && ReadsQueue(replies, k + 1) && replies(k + 1).queue == Some([])
    && !replies(k + 2).fails && replies(k + 2).tracks.Some? && CountTrue(replies(k + 2).tracks.value) == 1
  }

  /** A poll answered, in time, by a player that does not play. */
  predicate Waits(replies: nat -> Reply, k: nat) {
    !replies(k).fails && replies(k).player.state != Playing && !replies(k + 1).late
  }

  predicate WaitsFor(replies: nat -> Reply, k: nat, n: nat) {
    forall i :: k <= i < k + n ==> Waits(replies, i)
  }

  /** A poll within patience, and before it is late, finds the player playing. */
  predicate SeesPlay(replies: nat -> Reply, k: nat, patience: nat) {
    exists n: nat :: n <= patience && WaitsFor(replies, k, n) && Reads(replies, k + n, Playing)
  }

  predicate PlayGoesThrough(replies: nat -> Reply, k: nat, patience: nat) {
    MayPlay(replies, k) && !replies(k + 2).fails && SeesPlay(replies, k + 3, patience)
  }

  /** The item added is read back before the player is awaited. */
  predicate AddGoesThrough(replies: nat -> Reply, k: nat, patience: nat) {
    && MayAdd(replies, k) && !replies(k + 3).fails
    && ReadsQueue(replies, k + 4) && ExactlyThePipe(replies(k + 4).queue.value)
    && SeesPlay(replies, k + 5, patience)
  }

  /** A playing player whose one current queue item is the bridge's pipe. */
  predicate MayPause(replies: nat -> Reply, k: nat) {
    && Reads(replies, k, Playing) && ReadsQueue(replies, k + 1)
    && ExactlyThePipe(CurrentToPause(replies(k + 1).queue.value, replies(k).player.itemId))
  }

  /** Exactly when a resume ends without an error. */
  predicate Resumes(replies: nat -> Reply, k: nat, patience: nat) {
    Reads(replies, k, Playing) || PlayGoesThrough(replies, k, patience) || AddGoesThrough(replies, k, patience)
  }

  predicate Pauses(replies: nat -> Reply, k: nat) {
    ReadsHalted(replies, k) || (MayPause(replies, k) && !replies(k + 2).fails && Reads(replies, k + 3, Paused))
  }

  /** Exactly when a resume plays, adds, and ends in which way. */
  predicate ResumeDecided(replies: nat -> Reply, k: nat, patience: nat, t: seq<Call>, r: Answer<bool>) {
    && (Play in t <==> MayPlay(replies, k))
    && (Add in t <==> MayAdd(replies, k))
    && (r == Got(false) <==> Reads(replies, k, Playing))
    && (r == Got(true) <==> PlayGoesThrough(replies, k, patience) || AddGoesThrough(replies, k, patience))
    && (r.Raised? <==> !Resumes(replies, k, patience))
  }

  /** Exactly when a pause is sent, and how it ends. */
  predicate PauseDecided(replies: nat -> Reply, k: nat, t: seq<Call>, r: Answer<bool>) {
    && (Pause in t <==> MayPause(replies, k))
    && (r == Got(false) <==> ReadsHalted(replies, k))
    && (r == Got(true) <==> MayPause(replies, k) && !replies(k + 2).fails && Reads(replies, k + 3, Paused))
    && (r.Raised? <==> !Pauses(replies, k))
  }

  /** Polls that end otherwise never see the player play. */
  lemma GivesUp(replies: nat -> Reply, k: nat, n: nat, patience: nat)
    requires WaitsFor(replies, k, n) && n <= patience && !Reads(replies, k + n, Playing)
    requires replies(k + n).fails || replies(k + n + 1).late || n == patience
    ensures !SeesPlay(replies, k, patience)
  {
    forall m: nat | m <= patience && WaitsFor(replies, k, m)
      ensures !Reads(replies, k + m, Playing)
    {
      if m < n { assert Waits(replies, k + m); }
      assert m > n ==> Waits(replies, k + n);
    }
  }

  /** Reading more does not add a write. */
  lemma {:induction false} ReadsAddNothing(t: seq<Call>, n: nat)
    requires n <= |t| && forall i :: n <= i < |t| ==> !IsWrite(t[i])
    ensures Writes(t) == Writes(t[..n])
  {
    if n < |t| {
      assert t[..|t| - 1][..n] == t[..n];
      ReadsAddNothing(t[..|t| - 1], n);
    } else {
      assert t[..n] == t;
    }
  }

  /** A transcript with its only write at position n. */
  lemma OneWrite(t: seq<Call>, n: nat)
    requires n < |t| && IsWrite(t[n]) && forall i :: 0 <= i < |t| && i != n ==> !IsWrite(t[i])
    ensures Writes(t) == 1
  {
    ReadsAddNothing(t, n + 1);
    assert t[..n + 1][..n] == t[..n];
    ReadsAddNothing(t[..n], 0);
  }

  lemma NoWrites(t: seq<Call>)
    requires forall i :: 0 <= i < |t| ==> !IsWrite(t[i])
    ensures Writes(t) == 0
  {
    ReadsAddNothing(t, 0);
  }

  /** Transcripts without a write, and with a single addition or play, keep the rules. */
  lemma ReadingBreaksNoRule(t: seq<Call>)
    requires forall i :: 0 <= i < |t| ==> !IsWrite(t[i])
    ensures ResumeRules(t) && ResumeMeans(t, Raised) && Play !in t && Add !in t && Pause !in t
  {
    NoWrites(t);
  }

  lemma AddingKeepsTheRules(t: seq<Call>, info: PlayerInfo)
    requires Halted(info.state) && |t| >= 4 && t[..4] == [SawPlayer(info), SawQueue([]), SawTracks(1), Add]
    requires forall i :: 4 <= i < |t| ==> !IsWrite(t[i])
    ensures ResumeRules(t) && ResumeMeans(t, Raised) && Writes(t) == 1 && Play !in t && Add in t
  {
    assert t[0] == t[..4][0] && t[1] == t[..4][1] && t[2] == t[..4][2] && t[3] == t[..4][3];
    OneWrite(t, 3);
  }

  lemma PlayingKeepsTheRules(t: seq<Call>, info: PlayerInfo, items: seq<QueueItem>)
    requires Halted(info.state) && |t| >= 3
    requires t[0] == SawPlayer(info) && t[1] == SawQueue(items) && t[2] == Play
    requires items != [] && ExactlyThePipe(CurrentToResume(items, info.itemId))
    requires forall i :: 3 <= i < |t| ==> !IsWrite(t[i])
    ensures ResumeRules(t) && ResumeMeans(t, Raised) && Writes(t) == 1 && Play in t && Add !in t
  {
    hide CurrentToResume, ExactlyThePipe, Writes;
    OneWrite(t, 2);
    forall i | 0 <= i < |t|
      ensures (t[i].Play? <==> i == 2) && !t[i].Pause? && !t[i].Add?
    {
      if i >= 3 { assert !IsWrite(t[i]); }
    }
  }

  lemma PausingKeepsTheRules(t: seq<Call>, info: PlayerInfo, items: seq<QueueItem>)
    requires info.state == Playing && |t| >= 3 && t[..3] == [SawPlayer(info), SawQueue(items), Pause]
    requires ExactlyThePipe(CurrentToPause(items, info.itemId))
    requires forall i :: 3 <= i < |t| ==> !IsWrite(t[i])
    ensures PauseRules(t, Raised) && Pause in t
  {
    hide CurrentToPause, ExactlyThePipe, Writes;
    assert t[0] == t[..3][0] && t[1] == t[..3][1] && t[2] == t[..3][2];
    OneWrite(t, 2);
  }

  lemma PausedWithinTheRules(t: seq<Call>)
    requires PauseRules(t, Raised) && |t| == 4 && t[2].Pause? && t[3].SawPlayer? && t[3].info.state == Paused
    ensures PauseRules(t, Got(true))
  {}

  lemma NothingBreaksNoRule()
    ensures ResumeRules([])
  {}

  class Player {
    const replies: nat -> Reply
    /** No polling loop waits longer than this many polls. */
    const patience: nat
    var used: nat
    var calls: seq<Call>

    constructor (replies: nat -> Reply, patience: nat)
      ensures this.replies == replies && this.patience == patience && used == 0 && calls == []
    {
      this.replies := replies;
      this.patience := patience;
      used, calls := 0, [];
    }

    method GetPlayer() returns (r: Answer<PlayerInfo>)
      modifies this
      ensures used == old(used) + 1
      ensures r == if replies(old(used)).fails then Raised else Got(replies(old(used)).player)
      ensures calls == if r.Got? then old(calls) + [SawPlayer(r.value)] else old(calls)
    {
      var reply := replies(used);
      used := used + 1;
      if reply.fails { return Raised; }
      calls := calls + [SawPlayer(reply.player)];
      return Got(reply.player);
    }

    /** A failed request and a malformed queue are both errors for the caller. */
    method GetQueue() returns (r: Answer<seq<QueueItem>>)
      modifies this
      ensures used == old(used) + 1
      ensures r == if ReadsQueue(replies, old(used)) then Got(replies(old(used)).queue.value) else Raised
      ensures calls == if r.Got? then old(calls) + [SawQueue(r.value)] else old(calls)
    {
      var reply := replies(used);
      used := used + 1;
      if reply.fails || reply.queue.None? { return Raised; }
      calls := calls + [SawQueue(reply.queue.value)];
      return Got(reply.queue.value);
    }

    method SearchPipe() returns (r: Answer<nat>)
      modifies this
      ensures used == old(used) + 1
      ensures var reply := replies(old(used));
        r == if reply.fails || reply.tracks.None? then Raised else Got(CountTrue(reply.tracks.value))
      ensures calls == if r.Got? then old(calls) + [SawTracks(r.value)] else old(calls)
    {
      var reply := replies(used);
      used := used + 1;
      if reply.fails || reply.tracks.None? { return Raised; }
      var exact := CountTrue(reply.tracks.value);
      calls := calls + [SawTracks(exact)];
      return Got(exact);
    }

    /** A write reaches OwnTone, or may have, even when its request fails. */
    method Send(c: Call) returns (r: Answer<()>)
      requires IsWrite(c)
      modifies this
      ensures used == old(used) + 1 && calls == old(calls) + [c]
      ensures r.Raised? <==> replies(old(used)).fails
    {
      var reply := replies(used);
      used := used + 1;
      calls := calls + [c];
      return if reply.fails then Raised else Got(());
    }

    /** Polls until the player plays; a deadline, or a sleep that would be negative, raises. */
    method AwaitPlay() returns (r: Answer<bool>)
      modifies this
      ensures old(calls) <= calls && (forall i :: |old(calls)| <= i < |calls| ==> calls[i].SawPlayer?)
      ensures r != Got(false)
      ensures r == Got(true) ==>
        |calls| > |old(calls)| && calls[|calls| - 1].SawPlayer? && calls[|calls| - 1].info.state == Playing
      ensures r == if SeesPlay(replies, old(used), patience) then Got(true) else Raised
    {
      var polls := 0;
      while true
        invariant used == old(used) + polls && WaitsFor(replies, old(used), polls)
        invariant old(calls) <= calls && forall i :: |old(calls)| <= i < |calls| ==> calls[i].SawPlayer?
        invariant polls <= patience
        decreases patience - polls
      {
        var refreshed := GetPlayer();
        if refreshed.Raised? {
          GivesUp(replies, old(used), polls, patience);
          return Raised;
        }
        if refreshed.value.state == Playing { return Got(true); }
        if replies(used).late || polls == patience {
          GivesUp(replies, old(used), polls, patience);
          return Raised;
        }
        polls := polls + 1;
      }
    }

    method Resume() returns (r: Answer<bool>)
      modifies this
      ensures old(calls) <= calls
      ensures var t := calls[|old(calls)|..];
        ResumeRules(t) && ResumeMeans(t, r) && ResumeDecided(replies, old(used), patience, t, r)
    {
      hide Writes, Current, CountTrue, ExactlyThePipe, SeesPlay, ResumeRules;
      ghost var start, k := |calls|, used;
      var player := GetPlayer();
      if player.Raised? {
        assert calls[start..] == [];
        ReadingBreaksNoRule([]);
        return Raised;
      }
      var info := player.value;
      assert calls[start..] == [SawPlayer(info)];
      ReadingBreaksNoRule([SawPlayer(info)]);
      if info.state == Unknown { return Raised; }
      if info.state == Playing { return Got(false); }
      var queue := GetQueue();
      if queue.Raised? { return Raised; }
      var items := queue.value;
      assert calls[start..] == [SawPlayer(info), SawQueue(items)];
      if items == [] {
        r := Install(start, k, info);
      } else {
        r := PlayCurrent(start, k, info, items);
      }
    }

    /** The queue is empty: install only our exact item, and only if it is unambiguous. */
    method Install(ghost start: nat, ghost k: nat, info: PlayerInfo) returns (r: Answer<bool>)
      requires start <= |calls| && Halted(info.state) && calls[start..] == [SawPlayer(info), SawQueue([])]
      requires k + 2 == used && ReadsHalted(replies, k) && ReadsQueue(replies, k + 1)
      requires replies(k).player == info && replies(k + 1).queue == Some([])
      modifies this
      ensures old(calls) <= calls
      ensures var t := calls[start..];
        ResumeRules(t) && ResumeMeans(t, r) && ResumeDecided(replies, k, patience, t, r)
    {
      hide Writes, Current, CountTrue, ExactlyThePipe, SeesPlay, ResumeRules;
      ReadingBreaksNoRule(calls[start..]);
      var found := SearchPipe();
      if found.Raised? { return Raised; }
      assert calls[start..] == [SawPlayer(info), SawQueue([]), SawTracks(found.value)];
      ReadingBreaksNoRule(calls[start..]);
      if found.value != 1 { return Raised; }
      var sent := Send(Add);
      ghost var t4 := [SawPlayer(info), SawQueue([]), SawTracks(1), Add];
      assert calls[start..] == t4;
      AddingKeepsTheRules(calls[start..], info);
      if sent.Raised? { return Raised; }
      r := AwaitAdded(start, k, info);
    }

    /** The item was added: it must be the whole queue, and then be played. */
    method AwaitAdded(ghost start: nat, ghost k: nat, info: PlayerInfo) returns (r: Answer<bool>)
      requires start <= |calls| && Halted(info.state) && k + 4 == used
      requires calls[start..] == [SawPlayer(info), SawQueue([]), SawTracks(1), Add]
      requires MayAdd(replies, k) && !replies(k + 3).fails
      modifies this
      ensures old(calls) <= calls
      ensures var t := calls[start..];
        ResumeRules(t) && ResumeMeans(t, r) && ResumeDecided(replies, k, patience, t, r)
    {
      hide Writes, Current, CountTrue, ExactlyThePipe, SeesPlay, ResumeRules;
      AddingKeepsTheRules(calls[start..], info);
      var queue := GetQueue();
      if queue.Raised? { return Raised; }
      ghost var t5 := [SawPlayer(info), SawQueue([]), SawTracks(1), Add, SawQueue(queue.value)];
      assert calls[start..] == t5;
      AddingKeepsTheRules(calls[start..], info);
      if !ExactlyThePipe(queue.value) { return Raised; }
      r := AwaitPlay();
      assert calls[start..][..5] == t5 && calls[start..][4] == t5[4];
      forall i | 5 <= i < |calls[start..]|
        ensures calls[start..][i].SawPlayer? { assert calls[start..][i] == calls[start + i]; }
      assert calls[start..][..4] == t5[..4];
      AddingKeepsTheRules(calls[start..], info);
    }

    method PlayCurrent(ghost start: nat, ghost k: nat, info: PlayerInfo, items: seq<QueueItem>)
      returns (r: Answer<bool>)
      requires start <= |calls| && Halted(info.state) && items != []
      requires calls[start..] == [SawPlayer(info), SawQueue(items)]
      requires k + 2 == used && ReadsHalted(replies, k) && ReadsQueue(replies, k + 1)
      requires replies(k).player == info && replies(k + 1).queue == Some(items)
      modifies this
      ensures old(calls) <= calls
      ensures var t := calls[start..];
        ResumeRules(t) && ResumeMeans(t, r) && ResumeDecided(replies, k, patience, t, r)
    {
      hide Writes, Current, CountTrue, ExactlyThePipe, SeesPlay, ResumeRules;
      ReadingBreaksNoRule(calls[start..]);
      if !ExactlyThePipe(CurrentToResume(items, info.itemId)) { return Raised; }
      var sent := Send(Play);
      ghost var t3 := [SawPlayer(info), SawQueue(items), Play];
      assert calls[start..] == t3;
      PlayingKeepsTheRules(calls[start..], info, items);
      if sent.Raised? { return Raised; }
      r := AwaitPlay();
      assert forall i :: 0 <= i < 3 ==> calls[start..][i] == t3[i];
      forall i | 3 <= i < |calls[start..]|
        ensures calls[start..][i].SawPlayer? { assert calls[start..][i] == calls[start + i]; }
      PlayingKeepsTheRules(calls[start..], info, items);
    }

    method PausePcm() returns (r: Answer<bool>)
      modifies this
      ensures old(calls) <= calls
      ensures var t := calls[|old(calls)|..]; PauseRules(t, r) && PauseDecided(replies, old(used), t, r)
    {
      hide Writes, Current, ExactlyThePipe;
      ghost var start := |calls|;
      NoWrites([]);
      var player := GetPlayer();
      if player.Raised? { assert calls[start..] == []; return Raised; }
      var info := player.value;
      assert calls[start..] == [SawPlayer(info)];
      NoWrites(calls[start..]);
      if info.state == Unknown { return Raised; }
      if info.state != Playing { return Got(false); }
      var queue := GetQueue();
      if queue.Raised? { return Raised; }
      var items := queue.value;
      assert calls[start..] == [SawPlayer(info), SawQueue(items)];
      NoWrites(calls[start..]);
      if !ExactlyThePipe(CurrentToPause(items, info.itemId)) { return Raised; }
      r := SendPause(start, used - 2, info, items);
    }

    method SendPause(ghost start: nat, ghost k: nat, info: PlayerInfo, items: seq<QueueItem>) returns (r: Answer<bool>)
      requires start <= |calls| && info.state == Playing && k + 2 == used
      requires calls[start..] == [SawPlayer(info), SawQueue(items)]
      requires MayPause(replies, k) && replies(k).player == info && replies(k + 1).queue == Some(items)
      modifies this
      ensures old(calls) <= calls
      ensures var t := calls[start..]; PauseRules(t, r) && PauseDecided(replies, k, t, r)
    {
      hide Writes, Current, ExactlyThePipe, PauseRules;
      var sent := Send(Pause);
      assert calls[start..] == [SawPlayer(info), SawQueue(items), Pause];
      PausingKeepsTheRules(calls[start..], info, items);
      if sent.Raised? { return Raised; }
      var refreshed := GetPlayer();
      if refreshed.Raised? { return Raised; }
      assert calls[start..] == [SawPlayer(info), SawQueue(items), Pause, SawPlayer(refreshed.value)];
      PausingKeepsTheRules(calls[start..], info, items);
      if refreshed.value.state != Paused { return Raised; }
      PausedWithinTheRules(calls[start..]);
      return Got(true);
    }
  }

  predicate Stands(q: QueueItem, id: Option<string>, sole: bool) { q.QueueItem? && (q.id == Text(id) || sole) }

  /** Position i holds the only entry that stands for the current item, and it is the pipe. */
  predicate OnlyPipeAt(items: seq<QueueItem>, id: Option<string>, sole: bool, i: int) {
    && 0 <= i < |items| && Stands(items[i], id, sole) && items[i].bridgePipe
    && forall j :: 0 <= j < |items| && Stands(items[j], id, sole) ==> j == i
  }

  lemma {:induction false} NoneStands(items: seq<QueueItem>, id: Option<string>, sole: bool)
    ensures Current(items, id, sole) == [] <==> forall j :: 0 <= j < |items| ==> !Stands(items[j], id, sole)
  {
    if items != [] {
      NoneStands(items[1..], id, sole);
      assert forall j :: 1 <= j < |items| ==> items[j] == items[1..][j - 1];
    }
  }

  /** What play and pause wait for: exactly one queue entry is the current item, and it is the
      bridge's pipe. */
  lemma {:induction false} ThePipeIsUnique(items: seq<QueueItem>, id: Option<string>, sole: bool)
    ensures ExactlyThePipe(Current(items, id, sole)) <==> exists i :: OnlyPipeAt(items, id, sole, i)
  {
    if items != [] {
      var rest := items[1..];
      assert forall j :: 1 <= j < |items| ==> items[j] == rest[j - 1];
      NoneStands(rest, id, sole);
      if Stands(items[0], id, sole) {
        assert ExactlyThePipe(Current(items, id, sole)) <==> items[0].bridgePipe && Current(rest, id, sole) == [];
        if Current(rest, id, sole) == [] && items[0].bridgePipe { assert OnlyPipeAt(items, id, sole, 0); }
      } else {
        ThePipeIsUnique(rest, id, sole);
        if i :| OnlyPipeAt(rest, id, sole, i) { assert OnlyPipeAt(items, id, sole, i + 1); }
        if i :| OnlyPipeAt(items, id, sole, i) { assert OnlyPipeAt(rest, id, sole, i - 1); }
      }
    }
  }
}
