/** The findings the recovery supervisor acts on: who produces which kind, which kinds
    only wait, and which command a repair of each kind issues. */
module Findings {
  import opened Prelude

  datatype Service = Soloist | Owntone | Shairport | Capture

  const SERVICES: seq<Service> := [Soloist, Owntone, Shairport, Capture]

  /** The containers whose audio socket mounts are compared with the host, in order. */
  const MOUNTED: seq<Service> := [Soloist, Capture, Shairport]

  datatype Kind =
    | HostUnavailable | ContainerMissing | ContainerDown | StaleMount | ContainerUnhealthy
    | CaptureUnknown | CaptureMisrouted | Unknown | SourceMisrouted | ReceiverMisrouted
    | ReceiverRoute | ReceiverMuted | Idle | Unverified | PcmPaused | ReceiverCorked
    | WiimDisconnected | WiimUnavailable | DownstreamSilent | Verified

  /** The detail text of a finding carries no decision and is not modelled. */
  datatype Finding = Finding(kind: Kind, services: seq<Service>)

  datatype Mode = Auto | Local | Stopped | Manual

  // ---------------------------------------------------------------- infrastructure

  datatype Container = Malformed | Container(running: bool, unhealthy: bool)

  datatype InfrastructureView = InfrastructureView(
    host: Answer<()>,                               // sockets and sink list readable
    names: Answer<set<Service>>,                    // containers that exist
    states: Answer<map<Service, Container>>,        // docker inspect
    stale: map<Service, Answer<bool>>)              // some mounted socket is not the host's

  function State(states: map<Service, Container>, s: Service): Container {
    if s in states then states[s] else Malformed
  }

  function IsStale(v: InfrastructureView, s: Service): Answer<bool> {
    if s in v.stale then v.stale[s] else Raised
  }

  /** The first service of the list with the property, if any. */
  function First(services: seq<Service>, p: Service -> bool): (r: Option<Service>)
    ensures r.None? <==> forall i :: 0 <= i < |services| ==> !p(services[i])
    ensures r.Some? ==> r.value in services && p(r.value)
  {
    if services == [] then None
    else if p(services[0]) then Some(services[0])
    else First(services[1..], p)
  }

  /** The stale services of the list, in order; the first failing comparison raises. */
  function StaleServices(v: InfrastructureView, services: seq<Service>): Answer<seq<Service>> {
    if services == [] then Got([])
    else
      var last := services[|services| - 1];
      match (StaleServices(v, services[..|services| - 1]), IsStale(v, last))
      case (Got(before), Got(stale)) => Got(if stale then before + [last] else before)
      case (_, _) => Raised
  }

  /** Runtime.infrastructure as a function of what it observes. */
  function Infrastructure(v: InfrastructureView): Answer<Option<Finding>> {
    match v.host
    case Raised => Got(Some(Finding(HostUnavailable, [])))
    case Got(_) =>
      match v.names
      case Raised => Raised
      case Got(names) =>
        match First(SERVICES, s => s !in names)
        case Some(s) => Got(Some(Finding(ContainerMissing, [s])))
        case None =>
          match v.states
          case Raised => Raised
          case Got(states) =>
            match First(SERVICES, s => State(states, s).Malformed? || !State(states, s).running)
            case Some(s) => Got(Some(Finding(ContainerDown, [s])))
            case None =>
              match StaleServices(v, MOUNTED)
              case Raised => Raised
              case Got(stale) =>
                if stale != [] then Got(Some(Finding(StaleMount, stale)))
                else
                  match First(SERVICES, s => State(states, s).Container? && State(states, s).unhealthy)
                  case Some(s) => Got(Some(Finding(ContainerUnhealthy, [s])))
                  case None => Got(None)
  }

  lemma FirstSkips(services: seq<Service>, p: Service -> bool, i: nat)
    requires i < |services|
    requires forall j :: 0 <= j < i ==> !p(services[j])
    requires p(services[i])
    ensures First(services, p) == Some(services[i])
    decreases i
  {
    if i > 0 {
      assert services[1..][i - 1] == services[i];
      forall j | 0 <= j < i - 1 ensures !p(services[1..][j]) { assert services[1..][j] == services[j + 1]; }
      FirstSkips(services[1..], p, i - 1);
    }
  }

  lemma FirstNone(services: seq<Service>, p: Service -> bool)
    requires forall j :: 0 <= j < |services| ==> !p(services[j])
    ensures First(services, p) == None
  {}

  /** The observation loops of Runtime.infrastructure, which stop at the first fault they meet. */
  method ObserveInfrastructure(v: InfrastructureView) returns (r: Answer<Option<Finding>>)
    ensures r == Infrastructure(v)
  {
    if v.host.Raised? { return Got(Some(Finding(HostUnavailable, []))); }
    if v.names.Raised? { return Raised; }
    var names := v.names.value;
    ghost var missing := s => s !in names;
    for i := 0 to |SERVICES|
      invariant forall j :: 0 <= j < i ==> !missing(SERVICES[j])
    {
      if SERVICES[i] !in names {
        FirstSkips(SERVICES, missing, i);
        return Got(Some(Finding(ContainerMissing, [SERVICES[i]])));
      }
    }
    FirstNone(SERVICES, missing);
    if v.states.Raised? { return Raised; }
    var states := v.states.value;
    ghost var down := s => State(states, s).Malformed? || !State(states, s).running;
    for i := 0 to |SERVICES|
      invariant forall j :: 0 <= j < i ==> !down(SERVICES[j])
    {
      var state := State(states, SERVICES[i]);
      if state.Malformed? || !state.running {
        FirstSkips(SERVICES, down, i);
        return Got(Some(Finding(ContainerDown, [SERVICES[i]])));
      }
    }
    FirstNone(SERVICES, down);
    var stale: seq<Service> := [];
    for i := 0 to |MOUNTED|
      invariant StaleServices(v, MOUNTED[..i]) == Got(stale)
    {
      assert MOUNTED[..i + 1][..i] == MOUNTED[..i];
      var differs := IsStale(v, MOUNTED[i]);
      if differs.Raised? {
        StaleRaises(v, MOUNTED, i + 1);
        return Raised;
      }
      if differs.value { stale := stale + [MOUNTED[i]]; }
    }
    assert MOUNTED[..|MOUNTED|] == MOUNTED;
    if stale != [] { return Got(Some(Finding(StaleMount, stale))); }
    ghost var unhealthy := s => State(states, s).Container? && State(states, s).unhealthy;
    for i := 0 to |SERVICES|
      invariant forall j :: 0 <= j < i ==> !unhealthy(SERVICES[j])
    {
      var state := State(states, SERVICES[i]);
      if state.Container? && state.unhealthy {
        FirstSkips(SERVICES, unhealthy, i);
        return Got(Some(Finding(ContainerUnhealthy, [SERVICES[i]])));
      }
    }
    FirstNone(SERVICES, unhealthy);
    return Got(None);
  }

  lemma StaleRaises(v: InfrastructureView, services: seq<Service>, i: nat)
    requires i <= |services|
    requires StaleServices(v, services[..i]).Raised?
    ensures StaleServices(v, services).Raised?
  {
    if i < |services| {
      var front := services[..|services| - 1];
      assert front[..i] == services[..i];
      StaleRaises(v, front, i);
    } else {
      assert services[..i] == services;
    }
  }

  // ------------------------------------------------------------------------- routes

  /** A Pulse stream; an index that is not a plain integer is None. */
  datatype Stream = Stream(index: Option<int>, attached: Option<int>)

  /** Runtime.capture_route: monitors are the valid indices of the private monitor's entries. */
  datatype CaptureView = CaptureView(monitors: Answer<seq<int>>, streams: Answer<seq<Stream>>)

  function CaptureRoute(v: CaptureView): Option<Finding> {
    if v.monitors.Raised? || v.streams.Raised? then Some(Finding(HostUnavailable, []))
    else if |v.monitors.value| != 1 then Some(Finding(HostUnavailable, []))
    else if |v.streams.value| != 1 || v.streams.value[0].index.None? || v.streams.value[0].attached.None? then
      Some(Finding(CaptureUnknown, []))
    else if v.streams.value[0].attached.value != v.monitors.value[0] then Some(Finding(CaptureMisrouted, []))
    else None
  }

  /** Runtime.source_route: sinks are the indices of the entries named like the private sink. */
  datatype SourceView = SourceView(sinks: Answer<seq<Option<int>>>, streams: Answer<seq<Stream>>)

  function SourceRoute(v: SourceView): Option<Finding> {
    if v.sinks.Raised? then Some(Finding(HostUnavailable, []))
    else if |v.sinks.value| != 1 || v.sinks.value[0].None? then Some(Finding(HostUnavailable, []))
    else if v.streams.Raised? then Some(Finding(HostUnavailable, []))
    else
      var streams := v.streams.value;
      if streams == [] then None
      else if |streams| != 1 || streams[0].index.None? || streams[0].attached.None? then
        Some(Finding(Unknown, []))
      else if streams[0].attached != v.sinks.value[0] then Some(Finding(SourceMisrouted, []))
      else None
  }

  /** Runtime.receiver_route: sinks are the valid indices of the configured PC sink. */
  datatype ReceiverView = ReceiverView(sinks: Answer<seq<int>>, streams: Answer<seq<Stream>>)

  function ReceiverRouteFault(v: ReceiverView): Option<Finding> {
    if v.sinks.Raised? || v.streams.Raised? then None
    else if |v.sinks.value| != 1 || |v.streams.value| != 1 then None
    else if v.streams.value[0].index.None? || v.streams.value[0].attached.None? then None
    else if v.streams.value[0].attached.value != v.sinks.value[0] then Some(Finding(ReceiverMisrouted, []))
    else None
  }

  // -------------------------------------------------------------------------- probe

  datatype ReceiverState = Misplaced | Muted | Corked | Ready
  datatype PcmState = Playing | Paused | Ended | Unreadable

  const ACTIVE_PEAK: int := 4

  datatype ProbeView = ProbeView(
    pcSink: Answer<bool>,
    receiver: Answer<ReceiverState>,
    peaks: Answer<(int, int)>,       // source monitor, PC monitor
    playing: Answer<bool>,
    player: Answer<PcmState>,
    group: Answer<()>,               // group validation and, when guarded, the source guard
    leader: Answer<bool>)            // the leader confirms AirPlay playback

  /** Runtime.probe. */
  function Probe(v: ProbeView, mode: Mode): Answer<Finding> {
    if v.pcSink.Raised? then Raised
    else if !v.pcSink.value then Got(Finding(HostUnavailable, []))
    else if v.receiver.Raised? then Raised
    else if v.receiver.value.Misplaced? then Got(Finding(ReceiverRoute, []))
    else if v.receiver.value.Muted? then Got(Finding(ReceiverMuted, []))
    else if v.peaks.Raised? || v.playing.Raised? then Raised
    else if !v.playing.value then Got(Finding(Idle, []))
    else if v.peaks.value.0 < ACTIVE_PEAK then Got(Finding(Unverified, []))
    else if v.player.Raised? then Raised
    else if v.player.value.Unreadable? then Got(Finding(Unknown, []))
    else if !v.player.value.Playing? then Got(Finding(PcmPaused, []))
    else if v.receiver.value.Corked? then Got(Finding(ReceiverCorked, []))
    else if mode == Auto && (v.group.Raised? || v.leader.Raised?) then Got(Finding(WiimUnavailable, []))
    else if mode == Auto && !v.leader.value then Got(Finding(WiimDisconnected, []))
    else if v.peaks.value.1 < ACTIVE_PEAK then Got(Finding(DownstreamSilent, []))
    else Got(Finding(Verified, []))
  }

  // --------------------------------------------------------------- classes and plans

  predicate WaitOnly(k: Kind) {
    k in {HostUnavailable, WiimUnavailable, ReceiverMuted, ReceiverCorked, CaptureUnknown, Unknown}
  }

  /** Each class of repair has its own budget, settling time and effect on escalation. */
  datatype Class = Route | Pcm | Transport

  function ClassOf(k: Kind): Class {
    if k in {SourceMisrouted, CaptureMisrouted, ReceiverMisrouted} then Route
    else if k == PcmPaused then Pcm
    else Transport
  }

  /** Observations of one kind that must come in a row before it is repaired. */
  function Required(k: Kind): nat {
    if k == CaptureMisrouted then 1 else 2
  }

  datatype Plan =
    | ResumePlayer
    | MoveStream(of: Service)
    | ReconnectWiim
    | Compose(services: seq<Service>, recreate: bool)
    | Restart(services: seq<Service>)
    | RefuseDestructive
    | RefuseUnrecognized

  /** The branch of Runtime.repair that a finding reaches, with the services it names. */
  function PlanFor(f: Finding, stage: nat): Plan {
    match f.kind
    case PcmPaused => ResumePlayer
    case ReceiverMisrouted => MoveStream(Shairport)
    case CaptureMisrouted => MoveStream(Capture)
    case SourceMisrouted => MoveStream(Soloist)
    case WiimDisconnected => ReconnectWiim
    case _ =>
      if f.kind in {StaleMount, ContainerMissing} then
        if f.services == [] then RefuseUnrecognized else Compose(f.services, f.kind == StaleMount)
      else if f.services != [] then Restart(f.services)
      else if f.kind in {ReceiverRoute, DownstreamSilent} then
        Restart(if stage == 0 then [Shairport] else [Owntone, Capture])
      else RefuseDestructive
  }

  /** The containers a plan restarts or recreates; moving a stream touches none. */
  function Touched(p: Plan): seq<Service> {
    match p
    case Compose(services, _) => services
    case Restart(services) => services
    case _ => []
  }

  const INFRASTRUCTURE_FAULTS: set<Kind> := {ContainerMissing, ContainerDown, StaleMount, ContainerUnhealthy}

  /** What every finding that can reach the repair step looks like: it names services
      exactly when the infrastructure check made it, and never for a kind without a branch. */
  predicate WellMade(f: Finding) {
    && (f.services != [] <==> f.kind in INFRASTRUCTURE_FAULTS)
    && f.kind !in {Idle, Unverified, Verified}
  }

  lemma StaleServicesAreMounted(v: InfrastructureView, services: seq<Service>)
    ensures StaleServices(v, services).Got? ==>
      forall s :: s in StaleServices(v, services).value <==> s in services && IsStale(v, s) == Got(true)
  {
    if services != [] && StaleServices(v, services).Got? {
      StaleServicesAreMounted(v, services[..|services| - 1]);
      assert services == services[..|services| - 1] + [services[|services| - 1]];
    }
  }

  /** The infrastructure check names a service only on evidence against that very service. */
  lemma InfrastructureNamesOnlyTheFaulty(v: InfrastructureView)
    ensures Infrastructure(v).Got? && Infrastructure(v).value.Some? ==>
      var f := Infrastructure(v).value.value;
      && (f.kind == HostUnavailable || f.kind in INFRASTRUCTURE_FAULTS)
      && (f.services == [] <==> f.kind == HostUnavailable)
      && (forall s :: s in f.services ==>
           match f.kind
           case ContainerMissing => v.names.Got? && s !in v.names.value
           case ContainerDown =>
             v.states.Got? && (State(v.states.value, s).Malformed? || !State(v.states.value, s).running)
           case StaleMount => IsStale(v, s) == Got(true)
           case ContainerUnhealthy =>
             v.states.Got? && State(v.states.value, s).Container? && State(v.states.value, s).unhealthy
           case _ => false)
  {
    StaleServicesAreMounted(v, MOUNTED);
  }

  predicate Runs(v: InfrastructureView, s: Service) {
    && v.names.Got? && s in v.names.value && v.states.Got?
    && State(v.states.value, s).Container? && State(v.states.value, s).running
  }

  predicate AllExist(v: InfrastructureView) { v.host.Got? && v.names.Got? && forall s: Service :: s in v.names.value }

  predicate AllRun(v: InfrastructureView) { v.host.Got? && forall s: Service :: Runs(v, s) }

  predicate AllCompared(v: InfrastructureView) { forall s :: s in MOUNTED ==> IsStale(v, s).Got? }

  predicate Ill(v: InfrastructureView, s: Service) {
    v.states.Got? && State(v.states.value, s).Container? && State(v.states.value, s).unhealthy
  }

  predicate AllFresh(v: InfrastructureView) { forall s :: s in MOUNTED ==> IsStale(v, s) == Got(false) }

  /** The check passes over no infrastructure fault: exactly when it reports which kind, and
      exactly when it reports none. */
  lemma {:induction false} NoFaultIsPassedOver(v: InfrastructureView)
    ensures Infrastructure(v) == Got(None) <==> AllRun(v) && AllFresh(v) && forall s :: !Ill(v, s)
    ensures Reports(v, HostUnavailable) <==> v.host.Raised?
    ensures Reports(v, ContainerMissing) <==> v.host.Got? && v.names.Got? && exists s :: s !in v.names.value
    ensures Reports(v, ContainerDown) <==> AllExist(v) && v.states.Got? && exists s :: !Runs(v, s)
    ensures Reports(v, StaleMount) <==> AllRun(v) && AllCompared(v) && !AllFresh(v)
    ensures Reports(v, ContainerUnhealthy) <==> AllRun(v) && AllFresh(v) && exists s :: Ill(v, s)
  {
    hide First;
    assert !v.states.Got? || !v.names.Got? ==> !Runs(v, Soloist);
    if v.host.Got? && v.names.Got? {
      var missing := s => s !in v.names.value;
      FirstOfAll(missing);
      if AllRun(v) {
        forall s: Service ensures s in v.names.value { assert Runs(v, s); }
      }
      if v.states.Got? {
        var states := v.states.value;
        var down := s => State(states, s).Malformed? || !State(states, s).running;
        var ill := s => State(states, s).Container? && State(states, s).unhealthy;
        FirstOfAll(down);
        FirstOfAll(ill);
        StaleFound(v);
        assert forall s :: missing(s) <==> s !in v.names.value;
        assert AllExist(v) ==> forall s :: down(s) <==> !Runs(v, s);
        assert forall s :: ill(s) <==> Ill(v, s);
      }
      assert forall s :: missing(s) <==> s !in v.names.value;
    }
  }

  lemma FirstOfAll(p: Service -> bool)
    ensures First(SERVICES, p).None? <==> forall s :: !p(s)
    ensures First(SERVICES, p).Some? ==> p(First(SERVICES, p).value)
  {
    hide First;
    EveryServiceIsListed();
    if First(SERVICES, p).None? {
      forall s ensures !p(s) {
        assert s in SERVICES;
      }
    }
  }

  lemma StaleFound(v: InfrastructureView)
    ensures StaleServices(v, MOUNTED).Got? <==> AllCompared(v)
    ensures StaleServices(v, MOUNTED) == Got([]) <==> AllFresh(v)
  {
    StaleServicesAreMounted(v, MOUNTED);
    StaleServicesCompare(v, MOUNTED);
    if StaleServices(v, MOUNTED).Got? {
      var stale := StaleServices(v, MOUNTED).value;
      assert stale != [] ==> stale[0] in stale;
      forall s | s in MOUNTED && s !in stale ensures IsStale(v, s) == Got(false) {
        if IsStale(v, s).value {}
      }
    }
  }

  predicate Reports(v: InfrastructureView, k: Kind) {
    Infrastructure(v).Got? && Infrastructure(v).value.Some? && Infrastructure(v).value.value.kind == k
  }

  lemma EveryServiceIsListed()
    ensures forall s: Service :: s in SERVICES
  {
    forall s: Service ensures s in SERVICES {
      match s
      case Soloist => assert SERVICES[0] == s;
      case Owntone => assert SERVICES[1] == s;
      case Shairport => assert SERVICES[2] == s;
      case Capture => assert SERVICES[3] == s;
    }
  }

  lemma {:induction false} StaleServicesCompare(v: InfrastructureView, services: seq<Service>)
    ensures StaleServices(v, services).Got? <==> forall s :: s in services ==> IsStale(v, s).Got?
  {
    if services != [] {
      var front, last := services[..|services| - 1], services[|services| - 1];
      StaleServicesCompare(v, front);
      assert services == front + [last];
    }
  }

  /** One stream, attached to something that is not its only target. */
  predicate Astray(streams: seq<Stream>, targets: seq<int>) {
    && |streams| == 1 && |targets| == 1 && streams[0].index.Some?
    && streams[0].attached.Some? && streams[0].attached.value != targets[0]
  }

  /** The fault of each route check moves the stream of that check, exactly if it is the only
      one and astray; everything else it reports only waits. */
  lemma EachRouteMovesItsOwnStream(c: CaptureView, s: SourceView, r: ReceiverView, stage: nat)
    ensures CaptureRoute(c).Some? ==>
      WaitOnly(CaptureRoute(c).value.kind) || PlanFor(CaptureRoute(c).value, stage) == MoveStream(Capture)
    ensures CaptureRoute(c) == Some(Finding(CaptureMisrouted, [])) <==>
      c.monitors.Got? && c.streams.Got? && Astray(c.streams.value, c.monitors.value)
    ensures SourceRoute(s).Some? ==>
      WaitOnly(SourceRoute(s).value.kind) || PlanFor(SourceRoute(s).value, stage) == MoveStream(Soloist)
    ensures SourceRoute(s) == Some(Finding(SourceMisrouted, [])) <==>
      && s.sinks.Got? && s.streams.Got? && |s.sinks.value| == 1 && s.sinks.value[0].Some?
      && Astray(s.streams.value, [s.sinks.value[0].value])
    ensures ReceiverRouteFault(r).Some? ==> PlanFor(ReceiverRouteFault(r).value, stage) == MoveStream(Shairport)
    ensures ReceiverRouteFault(r).Some? <==>
      r.sinks.Got? && r.streams.Got? && Astray(r.streams.value, r.sinks.value)
  {}

  /** What the probe must see of a path, from the PC's sink to its peak. */
  predicate Heard(v: ProbeView) { v.pcSink == Got(true) && v.receiver.Got? && !v.receiver.value.Misplaced? }

  predicate Fed(v: ProbeView) {
    && Heard(v) && !v.receiver.value.Muted? && v.peaks.Got? && v.playing == Got(true) && v.peaks.value.0 >= ACTIVE_PEAK
    && v.player.Got? && !v.player.value.Unreadable?
  }

  predicate Flows(v: ProbeView) { Fed(v) && v.player.value.Playing? && v.receiver.value.Ready? }

  predicate WiimJoined(v: ProbeView, mode: Mode) { mode == Auto ==> v.group.Got? && v.leader == Got(true) }

  /** Exactly when the probe finds what is repaired and by which branch, and when it verifies. */
  lemma ProbeFindsExactly(v: ProbeView, mode: Mode, stage: nat)
    ensures Probe(v, mode) == Got(Finding(Verified, [])) <==>
      Flows(v) && WiimJoined(v, mode) && v.peaks.value.1 >= ACTIVE_PEAK
    ensures Probe(v, mode) == Got(Finding(DownstreamSilent, [])) <==>
      Flows(v) && WiimJoined(v, mode) && v.peaks.value.1 < ACTIVE_PEAK
    ensures Probe(v, mode) == Got(Finding(WiimDisconnected, [])) <==>
      Flows(v) && mode == Auto && v.group.Got? && v.leader == Got(false)
    ensures Probe(v, mode) == Got(Finding(PcmPaused, [])) <==> Fed(v) && !v.player.value.Playing?
    ensures Probe(v, mode) == Got(Finding(ReceiverRoute, [])) <==>
      v.pcSink == Got(true) && v.receiver.Got? && v.receiver.value.Misplaced?
    ensures PlanFor(Finding(WiimDisconnected, []), stage) == ReconnectWiim
    ensures PlanFor(Finding(PcmPaused, []), stage) == ResumePlayer
  {
    if v.pcSink.Got? && v.pcSink.value {}
    if v.playing.Got? && v.playing.value {}
    if v.leader.Got? && v.leader.value {}
  }

  /** Every finding the runtime can produce that is not a wait has a branch in repair that
      issues a command: the refusals are unreachable. */
  lemma EveryFaultHasABranch(f: Finding, stage: nat)
    requires WellMade(f) && !WaitOnly(f.kind)
    ensures !PlanFor(f, stage).RefuseDestructive? && !PlanFor(f, stage).RefuseUnrecognized?
    ensures Soloist in Touched(PlanFor(f, stage)) ==> f.kind in INFRASTRUCTURE_FAULTS && Soloist in f.services
    ensures f.kind in {ReceiverRoute, DownstreamSilent} ==>
      Touched(PlanFor(f, stage)) == if stage == 0 then [Shairport] else [Owntone, Capture]
    ensures f.kind in INFRASTRUCTURE_FAULTS ==> Touched(PlanFor(f, stage)) == f.services
    ensures f.kind in {ContainerMissing, StaleMount} ==> PlanFor(f, stage) == Compose(f.services, f.kind == StaleMount)
    ensures f.kind in {PcmPaused, WiimDisconnected} || ClassOf(f.kind) == Route ==> Touched(PlanFor(f, stage)) == []
  {}

  /** Both halves of the previous lemma's hypothesis: the producers make only such findings. */
  lemma ProducersAreWellMade(i: InfrastructureView, c: CaptureView, s: SourceView, r: ReceiverView, p: ProbeView,
                             mode: Mode)
    ensures Infrastructure(i).Got? && Infrastructure(i).value.Some? ==> WellMade(Infrastructure(i).value.value)
    ensures CaptureRoute(c).Some? ==> WellMade(CaptureRoute(c).value)
    ensures SourceRoute(s).Some? ==> WellMade(SourceRoute(s).value)
    ensures ReceiverRouteFault(r).Some? ==> WellMade(ReceiverRouteFault(r).value)
    ensures Probe(p, mode).Got? && Probe(p, mode).value.kind !in {Idle, Unverified, Verified} ==>
      WellMade(Probe(p, mode).value)
  {
    InfrastructureNamesOnlyTheFaulty(i);
  }

  // ------------------------------------------------------------- nothing is wrong

  const RUNNING := Container(true, false)

  const HEALTHY := InfrastructureView(
    Got(()), Got({Soloist, Owntone, Shairport, Capture}),
    Got(map[Soloist := RUNNING, Owntone := RUNNING, Shairport := RUNNING, Capture := RUNNING]),
    map[Soloist := Got(false), Capture := Got(false), Shairport := Got(false)])

  lemma HealthyIsHealthy()
    ensures Infrastructure(HEALTHY) == Got(None)
  {
    forall s: Service ensures State(HEALTHY.states.value, s) == RUNNING && s in HEALTHY.names.value {
      match s case Soloist => case Owntone => case Shairport => case Capture =>
    }
    NoneStale([]);
    NoneStale([Soloist]);
    NoneStale([Soloist, Capture]);
    assert MOUNTED == [Soloist, Capture] + [Shairport] && [Soloist, Capture] == [Soloist] + [Capture];
  }

  lemma NoneStale(services: seq<Service>)
    ensures forall s :: (s != Owntone && StaleServices(HEALTHY, services) == Got([])) ==>
      StaleServices(HEALTHY, services + [s]) == Got([])
    ensures StaleServices(HEALTHY, []) == Got([])
  {
    forall s ensures (services + [s])[..|services + [s]| - 1] == services {}
  }
}
