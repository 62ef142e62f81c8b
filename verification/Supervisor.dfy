/** The decisions of the recovery supervisor, as functions from its state and everything
    one call observes to its next state and the externally visible effects, in order.
    Times lie on one scale: the wall clock and the monotonic clock advance together. */
module SupervisorSteps {
  import opened Prelude
  import opened Findings

  const PERIOD: real := 5.0
  const PROBE_PERIOD: real := 15.0
  const SETTLE_SECONDS: real := 20.0
  const TRANSPORT_SETTLE_SECONDS: real := 60.0
  const PCM_RESUME_SETTLE_SECONDS: real := 10.0
  const PCM_RESUME_PROBE_SECONDS: real := 5.0
  const BUDGET_SECONDS: real := 600.0
  const ROUTE_REPAIR_LIMIT: nat := 3
  const PCM_RESUME_LIMIT: nat := 6

  function Limit(c: Class): nat {
    if c == Pcm then PCM_RESUME_LIMIT else ROUTE_REPAIR_LIMIT
  }

  function SettleAfter(c: Class): real {
    match c
    case Pcm => PCM_RESUME_SETTLE_SECONDS
    case Route => SETTLE_SECONDS
    case Transport => TRANSPORT_SETTLE_SECONDS
  }

  /** Attempt times, one list for each class of repair. */
  datatype Budgets = Budgets(transport: seq<real>, route: seq<real>, pcm: seq<real>) {
    function At(c: Class): seq<real> {
      match c
      case Transport => transport
      case Route => route
      case Pcm => pcm
    }
    function With(c: Class, times: seq<real>): Budgets {
      match c
      case Transport => this.(transport := times)
      case Route => this.(route := times)
      case Pcm => this.(pcm := times)
    }
  }

  /** What the status file keeps for the next process: the attempts as wall-clock stamps and
      the desktop stream whose mute is ours. */
  datatype Disk = Disk(stamps: Budgets, muted: Option<int>)

  datatype Phase = Starting | Degraded | Recovering | ManualControl | IdleNow | Connecting | PlayingNow | Unproven

  /** The fields of Supervisor that a decision reads. `zero` is the monotonic clock's zero,
      the default of the deadlines. */
  datatype Sup = Sup(
    zero: real,
    phase: Phase,
    nextInfrastructure: real,
    nextProbe: real,
    settleUntil: real,
    previousFault: Option<Kind>,
    consecutive: nat,
    stage: nat,
    times: Budgets,
    muted: Option<int>,
    infrastructureFault: Option<Finding>)

  function Fresh(zero: real): Sup {
    Sup(zero, Starting, zero, zero, zero, None, 0, 0, Budgets([], [], []), None, None)
  }

  /** The effects a step has outside the process, and the observations its streak logic rests on. */
  datatype Entry =
    | Began(now: real, wall: real)                       // a process restored its state, reading its clocks then
    | Saw(kind: Kind)                                    // a fault was counted
    | Waited(kind: Kind)                                 // a wait-only finding
    | Calm(kind: Kind)                                   // a probe found no fault
    | Quiet                                              // playback is idle
    | Changed(at: real)                                  // reconciliation changed the outputs
    | Spent(of: Class, at: real)                         // an attempt of this class was charged
    | Wrote(disk: Disk)                                  // the status file was replaced
    /** Runtime.repair was called at `called`, in a tick that read its clock at `at`. */
    | Tried(finding: Finding, stage: nat, at: real, called: real)
    /** set_desktop_spotify_mute was called, and `issued` a command if it found the stream otherwise. */
    | Commanded(index: int, on: bool, issued: bool, result: Answer<bool>)
    | Moved(old_: int, new_: int)                        // the claim follows a recreated stream
    | Lost(index: int)                                   // the claimed stream came back unmuted

  // ----------------------------------------------------------------- the status file

  /** Whether writing the status file succeeds, and the wall-clock readings it takes. */
  datatype Save = Saved(readings: nat -> real) | SaveFailed

  function Stamps(times: seq<real>, now: real, readings: nat -> real, first: nat): (r: seq<real>)
    ensures |r| == |times|
  {
    if times == [] then []
    else
      var n := |times| - 1;
      Stamps(times[..n], now, readings, first) + [readings(first + n) - (now - times[n])]
  }

  /** Each attempt is stamped by a reading of its own. */
  lemma {:induction false} StampsAt(times: seq<real>, now: real, readings: nat -> real, first: nat)
    ensures forall i :: 0 <= i < |times| ==>
      Stamps(times, now, readings, first)[i] == readings(first + i) - (now - times[i])
  {
    if times != [] { StampsAt(times[..|times| - 1], now, readings, first); }
  }

  /** Supervisor.persist: reading 0 stamps the file itself, then one for each attempt. */
  function Persisted(s: Sup, now: real, readings: nat -> real): Disk {
    var a, b := |s.times.transport|, |s.times.route|;
    Disk(Budgets(Stamps(s.times.transport, now, readings, 1),
                 Stamps(s.times.route, now, readings, 1 + a),
                 Stamps(s.times.pcm, now, readings, 1 + a + b)),
         s.muted)
  }

  function Restamped(stamps: seq<real>, now: real, wall: real): (r: seq<real>)
    ensures forall i :: 0 <= i < |r| ==> now - BUDGET_SECONDS < r[i] <= now
  {
    if stamps == [] then []
    else
      var before, last := Restamped(stamps[..|stamps| - 1], now, wall), stamps[|stamps| - 1];
      if 0.0 <= wall - last < BUDGET_SECONDS then before + [now - (wall - last)] else before
  }

  function Latest(times: seq<real>): real
    requires times != []
  {
    if |times| == 1 then times[0]
    else
      var rest := Latest(times[1..]);
      if times[0] >= rest then times[0] else rest
  }

  /** Supervisor.restore on an intact or absent file; `now` is read before `wall`. */
  function Restored(zero: real, disk: Option<Disk>, now: real, wall: real): Sup {
    match disk
    case None => Fresh(zero)
    case Some(d) =>
      var transport := Restamped(d.stamps.transport, now, wall);
      var until := if transport == [] then zero else Latest(transport) + TRANSPORT_SETTLE_SECONDS;
      Fresh(zero).(
        times := Budgets(transport, Restamped(d.stamps.route, now, wall), Restamped(d.stamps.pcm, now, wall)),
        settleUntil := until, nextProbe := until, muted := d.muted)
  }

  // -------------------------------------------------------------- desktop-stream mute

  datatype Desktop = Desktop(index: int, mute: bool)

  datatype MuteView = MuteView(before: Answer<seq<Desktop>>, command: Answer<()>, after: Answer<seq<Desktop>>)

  /** Runtime.set_desktop_spotify_mute: it acts only on the exact, still-present stream. */
  function SetMute(index: int, mute: bool, v: MuteView): Answer<bool> {
    match v.before
    case Raised => Raised
    case Got(streams) =>
      if Count(streams, index) != 1 then Got(false)
      else if (exists d :: d in streams && d.index == index && d.mute != mute) && v.command.Raised? then Raised
      else
        match v.after
        case Raised => Raised
        case Got(now_) => Got(exists d :: d in now_ && d.index == index && d.mute == mute)
  }

  /** Whether set_desktop_spotify_mute gets as far as issuing its command. */
  predicate Issues(index: int, mute: bool, v: MuteView) {
    && v.before.Got? && Count(v.before.value, index) == 1
    && exists d :: d in v.before.value && d.index == index && d.mute != mute
  }

  function MuteEntry(index: int, mute: bool, v: MuteView): Entry {
    Commanded(index, mute, Issues(index, mute, v), SetMute(index, mute, v))
  }

  function Count(streams: seq<Desktop>, index: int): nat {
    if streams == [] then 0
    else Count(streams[..|streams| - 1], index) + if streams[|streams| - 1].index == index then 1 else 0
  }

  function Owned(streams: seq<Desktop>, index: int): (r: Option<Desktop>)
    ensures r.None? <==> forall i :: 0 <= i < |streams| ==> streams[i].index != index
    ensures r.Some? ==> r.value in streams && r.value.index == index
  {
    if streams == [] then None
    else if streams[0].index == index then Some(streams[0])
    else Owned(streams[1..], index)
  }

  datatype GuardView = GuardView(
    streams: Answer<seq<Desktop>>,
    inBridge: Answer<bool>,
    save: Save,
    mute: MuteView)

  datatype Guarded = Guarded(sup: Sup, entries: seq<Entry>)

  /** The body of guard_desktop_audio once a claim is settled on `owned`. */
  function Hold(s: Sup, ownedMute: bool, conflict: bool, v: GuardView): Guarded
    requires s.muted.Some?
  {
    var index := s.muted.value;
    if conflict then
      if ownedMute then Guarded(s, []) else Guarded(s, [MuteEntry(index, true, v.mute)])
    else
      var result := SetMute(index, false, v.mute);
      Guarded(if result == Got(true) then s.(muted := None) else s, [MuteEntry(index, false, v.mute)])
  }

  function Claim(s: Sup, streams: seq<Desktop>, conflict: bool, now: real, v: GuardView): Guarded {
    if !conflict || |streams| != 1 || streams[0].mute then Guarded(s, [])
    else
      var index := streams[0].index;
      var claimed := s.(muted := Some(index));
      match v.save
      case SaveFailed => Guarded(claimed, [])
      case Saved(readings) =>
        Guarded(claimed, [Wrote(Persisted(claimed, now, readings)), MuteEntry(index, true, v.mute)])
  }

  function Adopt(s: Sup, old_: int, replacement: Desktop, conflict: bool, now: real, v: GuardView): Guarded {
    var moved := s.(muted := Some(replacement.index));
    match v.save
    case SaveFailed => Guarded(moved, [Moved(old_, replacement.index)])
    case Saved(readings) =>
      var held := Hold(moved, true, conflict, v);
      Guarded(held.sup, [Moved(old_, replacement.index), Wrote(Persisted(moved, now, readings))] + held.entries)
  }

  /** Supervisor.guard_desktop_audio; it swallows every listed exception. */
  function Guard(s: Sup, playing: bool, now: real, v: GuardView): Guarded {
    match v.streams
    case Raised => Guarded(s, [])
    case Got(streams) =>
      var inBridge := if |streams| == 1 then v.inBridge else Got(false);
      match inBridge
      case Raised => Guarded(s, [])
      case Got(inside) =>
        var conflict := playing || inside;
        match s.muted
        case None => Claim(s, streams, conflict, now, v)
        case Some(index) =>
          match Owned(streams, index)
          case Some(owned) => Hold(s, owned.mute, conflict, v)
          case None =>
            if |streams| != 1 then Guarded(s, [])
            else if streams[0].mute then Adopt(s, index, streams[0], conflict, now, v)
            else
              var fresh_ := Claim(s.(muted := None), streams, conflict, now, v);
              Guarded(fresh_.sup, [Lost(index)] + fresh_.entries)
  }

  // ----------------------------------------------------------------- faults and ticks

  /** Whether the charge can be written, when Runtime.repair is then called, and how it ends. */
  datatype RepairView = RepairView(save: Save, called: real, result: Answer<()>)

  datatype Outcome = Outcome(sup: Sup, entries: seq<Entry>, raised: bool)

  /** budget[:] = [attempt for attempt in budget if now - attempt < 600] */
  function Recent(times: seq<real>, now: real): (r: seq<real>)
    ensures |r| <= |times|
    ensures forall i :: 0 <= i < |r| ==> r[i] in times && now - r[i] < BUDGET_SECONDS
  {
    if times == [] then []
    else
      var before, last := Recent(times[..|times| - 1], now), times[|times| - 1];
      if now - last < BUDGET_SECONDS then before + [last] else before
  }

  /** The state after Runtime.repair returned or raised. */
  function Settled(s: Sup, c: Class, now: real): Sup {
    var until := now + SettleAfter(c);
    s.(stage := if c == Transport then s.stage + 1 else 0,
       consecutive := 0,
       settleUntil := until,
       nextProbe := if c == Pcm then until else s.nextProbe,
       nextInfrastructure := s.zero)
  }

  /** The repair half of Supervisor.fault: the attempt is charged and persisted before it runs. */
  function Recover(s: Sup, f: Finding, now: real, v: RepairView): Outcome {
    var c := ClassOf(f.kind);
    var kept := Recent(s.times.At(c), now);
    if |kept| >= Limit(c) then Outcome(s.(times := s.times.With(c, kept)), [], false)
    else
      var charged := s.(times := s.times.With(c, kept + [now]), phase := Recovering);
      match v.save
      case SaveFailed => Outcome(charged, [Spent(c, now)], true)
      case Saved(readings) =>
        Outcome(Settled(charged, c, now),
                [Spent(c, now), Wrote(Persisted(charged, now, readings)), Tried(f, s.stage, now, v.called)],
                v.result.Raised?)
  }

  /** Supervisor.fault. */
  function Fault(s: Sup, f: Finding, now: real, v: RepairView): Outcome {
    if WaitOnly(f.kind) then
      Outcome(s.(phase := Degraded, previousFault := None, consecutive := 0), [Waited(f.kind)], false)
    else
      var streak := if s.previousFault == Some(f.kind) then s.consecutive + 1 else 1;
      var counted := s.(phase := Degraded, previousFault := Some(f.kind), consecutive := streak);
      if streak < Required(f.kind) || (now < s.settleUntil && ClassOf(f.kind) != Route) then
        Outcome(counted, [Saw(f.kind)], false)
      else
        var r := Recover(counted, f, now, v);
        Outcome(r.sup, [Saw(f.kind)] + r.entries, r.raised)
  }

  datatype TickView = TickView(
    mode: Answer<Mode>,
    infrastructure: InfrastructureView,
    playing: Answer<bool>,
    guard: GuardView,
    capture: CaptureView,
    source: SourceView,
    receiver: ReceiverView,
    reconcile: Answer<bool>,
    probe: ProbeView,
    repair: RepairView)

  function AfterChange(s: Sup, now: real): Sup {
    var until := now + SETTLE_SECONDS;
    s.(settleUntil := until, consecutive := 0, nextProbe := until)
  }

  function AfterQuiet(s: Sup): Sup {
    s.(previousFault := None, consecutive := 0, stage := 0, phase := IdleNow)
  }

  /** A probe that found no fault; only a verified one ends an escalation. */
  function AfterCalm(s: Sup, k: Kind): Sup {
    s.(previousFault := None, consecutive := 0,
       stage := if k == Verified then 0 else s.stage,
       phase := match k case Verified => PlayingNow case Idle => IdleNow case _ => Unproven)
  }

  /** The end of tick, once reconciliation has settled the outputs. */
  function Probing(s: Sup, playing: bool, mode: Mode, now: real, v: TickView): Outcome {
    if mode in {Stopped, Manual} then Outcome(s.(phase := ManualControl), [], false)
    else if !playing then Outcome(AfterQuiet(s), [Quiet], false)
    else if now < s.settleUntil then Outcome(s.(phase := Connecting), [], false)
    else if now < s.nextProbe then Outcome(s, [], false)
    else
      var p := s.(nextProbe := now + PROBE_PERIOD);
      match Probe(v.probe, mode)
      case Raised => Outcome(p, [], true)
      case Got(f) =>
        if f.kind in {Verified, Idle, Unverified} then Outcome(AfterCalm(p, f.kind), [Calm(f.kind)], false)
        else
          var o := Fault(p, f, now, v.repair);
          var hurried := !o.raised && f.kind == PcmPaused && o.sup.phase == Degraded;
          Outcome(if hurried then o.sup.(nextProbe := now + PCM_RESUME_PROBE_SECONDS) else o.sup, o.entries, o.raised)
  }

  /** The part of tick after all route checks passed. */
  function Playback(s: Sup, playing: bool, mode: Mode, now: real, v: TickView): Outcome {
    match v.reconcile
    case Raised => Outcome(s, [], true)
    case Got(changed) =>
      if changed then
        var o := Probing(AfterChange(s, now), playing, mode, now, v);
        Outcome(o.sup, [Changed(now)] + o.entries, o.raised)
      else Probing(s, playing, mode, now, v)
  }

  /** The route checks, in order; the first fault ends the tick. */
  function RouteFault(v: TickView): Option<Finding> {
    match CaptureRoute(v.capture)
    case Some(f) => Some(f)
    case None =>
      match SourceRoute(v.source)
      case Some(f) => Some(f)
      case None => ReceiverRouteFault(v.receiver)
  }

  function AfterGuard(s: Sup, playing: bool, mode: Mode, now: real, v: TickView): Outcome {
    match RouteFault(v)
    case Some(f) => Fault(s, f, now, v.repair)
    case None => Playback(s, playing, mode, now, v)
  }

  function AfterInfrastructure(s: Sup, mode: Mode, now: real, v: TickView): Outcome {
    match v.playing
    case Raised => Outcome(s, [], true)
    case Got(playing) =>
      var g := Guard(s, playing, now, v.guard);
      var o := AfterGuard(g.sup, playing, mode, now, v);
      Outcome(o.sup, g.entries + o.entries, o.raised)
  }

  /** Supervisor.tick. */
  function Tick(s: Sup, now: real, v: TickView): Outcome {
    match v.mode
    case Raised => Outcome(s, [], true)
    case Got(mode) =>
      if now >= s.nextInfrastructure then
        match Infrastructure(v.infrastructure)
        case Raised => Outcome(s, [], true)
        case Got(found) =>
          var checked := s.(infrastructureFault := found, nextInfrastructure := now + PROBE_PERIOD);
          match found
          case Some(f) => Fault(checked, f, now, v.repair)
          case None => AfterInfrastructure(checked, mode, now, v)
      else if s.infrastructureFault.Some? then Outcome(s, [], false)
      else AfterInfrastructure(s, mode, now, v)
  }
}
