/** The bridge daemon as main.cpp wires it: one manager, handed the one
    legacy backend at start-up, whose merged fixes feed the manager's
    handle_position_update. The manager's requests to start and stop the
    backend are carried out with the replies the legacy service gives. */
module Daemon {
  import opened Values
  import Client
  import FixMerger
  import Location
  import LegacyBackend
  import Manager

  datatype Daemon = Daemon(manager: Manager.Manager, backend: LegacyBackend.Backend)

  /** Start-up: a fresh manager holding a fresh backend. */
  function Boot(connected: bool): (d: Daemon)
    ensures d.manager.hasBackend && d.manager.activeClients == 0 && !d.manager.graceTimerArmed
    ensures !d.backend.tracking && d.backend.connected == connected
  {
    Daemon(Manager.SetBackend(Manager.Init(), true), LegacyBackend.Init(connected))
  }

  /** Carry out the manager's backend requests in order; timer operations
      and warnings leave the backend alone. */
  function Perform(b: LegacyBackend.Backend, effects: seq<Manager.Effect>,
                   start: LegacyBackend.StartReplies, stop: LegacyBackend.StopReplies): (s: LegacyBackend.Step)
    ensures Manager.StartTracking !in effects && Manager.StopTracking !in effects ==> s == LegacyBackend.Step(b, [])
    ensures LegacyBackend.Wf(b) ==> LegacyBackend.Wf(s.state)
    ensures |effects| > 0 && effects[|effects| - 1] == Manager.StopTracking ==> LegacyBackend.Idle(s.state)
    decreases |effects|
  {
    if |effects| == 0 then LegacyBackend.Step(b, [])
    else
      var first := match effects[0]
        case StartTracking => LegacyBackend.StartTracking(b, start)
        case StopTracking => LegacyBackend.StopTracking(b, stop)
        case _ => LegacyBackend.Step(b, []);
      assert effects[0] != Manager.StartTracking && effects[0] != Manager.StopTracking ==> first == LegacyBackend.Step(b, []);
      var rest := Perform(first.state, effects[1..], start, stop);
      assert |effects| == 1 ==> rest == LegacyBackend.Step(first.state, []);
      LegacyBackend.Step(rest.state, first.calls + rest.calls)
  }

  /** The requests that reach the manager over the bus, and its timer.
      set_backend is called once, by main, and handle_position_update only
      from the backend's position callback. */
  predicate FromBus(e: Manager.Event) {
    !e.SetBackendEvent? && !e.PositionUpdate?
  }

  /** What can happen to the daemon. */
  datatype Input =
    | Request(event: Manager.Event, start: LegacyBackend.StartReplies, stop: LegacyBackend.StopReplies)
    | ProviderSignal(service: string, path: string, replies: LegacyBackend.ProviderReplies)
    | PositionSignal(position: FixMerger.PositionSample, now: Location.Clock)
    | VelocitySignal(velocity: FixMerger.VelocitySample)

  /** The legacy calls made and the LocationUpdated signals sent. */
  datatype Output = Output(calls: seq<LegacyBackend.Call>, updates: map<string, Client.LocationUpdated>)

  /** One input. Bus requests reach only the manager and, through its
      effects, the backend; the legacy signals reach only the backend,
      except that a position fix is also published. */
  function Apply(d: Daemon, i: Input): (r: (Daemon, Output))
    ensures i.Request? && !FromBus(i.event) ==> r == (d, Output([], map[]))
    ensures i.Request? ==> r.1.updates == map[]
    ensures i.ProviderSignal? || i.VelocitySignal? ==> r.0.manager == d.manager && r.1.updates == map[]
    ensures i.PositionSignal? || i.VelocitySignal? ==> r.1.calls == []
    ensures i.PositionSignal? ==> r.0.manager.nextLocationId == d.manager.nextLocationId + 1
    ensures var effects := if i.Request? then Manager.Apply(d.manager, i.event).effects else [];
      i.Request? && Manager.StartTracking !in effects && Manager.StopTracking !in effects ==> r.0.backend == d.backend
  {
    match i
    case Request(e, start, stop) =>
      if !FromBus(e) then (d, Output([], map[]))
      else
        var s := Manager.Apply(d.manager, e);
        var b := Perform(d.backend, s.effects, start, stop);
        (Daemon(s.manager, b.state), Output(b.calls, map[]))
    case ProviderSignal(service, path, r) =>
      var s := LegacyBackend.OnPositionProviderChanged(d.backend, service, path, r);
      (d.(backend := s.state), Output(s.calls, map[]))
    case PositionSignal(sample, now) =>
      var (b, fix) := LegacyBackend.OnPositionChanged(d.backend, sample);
      var p := Manager.HandlePositionUpdate(d.manager, fix, now);
      (Daemon(p.manager, b), Output([], p.updates))
    case VelocitySignal(sample) =>
      (d.(backend := LegacyBackend.OnVelocityChanged(d.backend, sample).0), Output([], map[]))
  }

  function Run(d: Daemon, inputs: seq<Input>): Daemon
    decreases |inputs|
  {
    if |inputs| == 0 then d else Run(Apply(d, inputs[0]).0, inputs[1..])
  }

  /** What holds in every reachable state: both halves are well formed, and
      the legacy service is tracked only while some client is active or the
      grace period after the last one is still running. */
  ghost predicate Valid(d: Daemon) {
    && Manager.Valid(d.manager)
    && d.manager.hasBackend
    && LegacyBackend.Wf(d.backend)
    && (d.backend.tracking ==> d.manager.activeClients > 0 || d.manager.graceTimerArmed)
  }

  lemma BootValid(connected: bool)
    ensures Valid(Boot(connected))
  {
  }

  lemma RequestValid(d: Daemon, e: Manager.Event, start: LegacyBackend.StartReplies, stop: LegacyBackend.StopReplies)
    requires Valid(d) && FromBus(e)
    ensures Valid(Apply(d, Request(e, start, stop)).0)
  {
    var m := d.manager;
    var s := Manager.Apply(m, e);
    Manager.ApplyValid(m, e);
    Manager.StartOnlyOnFirstActivation(m, e);
    Manager.StopOnlyOnQuietGrace(m, e);
    if Manager.StopTracking in s.effects {
      assert s.effects == [Manager.StopTracking];
    } else if Manager.StartTracking in s.effects {
      var path := e.path;
      assert s == Manager.ClientBecameActive(m.(clientsByPath := s.manager.clientsByPath));
    } else if d.backend.tracking {
      Manager.QuietOnlyAfterStop(m, e);
    }
  }

  lemma PositionSignalValid(d: Daemon, sample: FixMerger.PositionSample, now: Location.Clock)
    requires Valid(d)
    ensures Valid(Apply(d, PositionSignal(sample, now)).0)
  {
    var fix := LegacyBackend.OnPositionChanged(d.backend, sample).1;
    Manager.PositionUpdateValid(d.manager, fix, now);
  }

  lemma VelocitySignalValid(d: Daemon, sample: FixMerger.VelocitySample)
    requires Valid(d)
    ensures Valid(Apply(d, VelocitySignal(sample)).0)
  {
  }

  /** Every input keeps the daemon valid. */
  lemma ApplyValid(d: Daemon, i: Input)
    requires Valid(d)
    ensures Valid(Apply(d, i).0)
  {
    match i
    case Request(e, start, stop) =>
      if FromBus(e) {
        RequestValid(d, e, start, stop);
      }
    case ProviderSignal(service, path, r) =>
    case PositionSignal(sample, now) => PositionSignalValid(d, sample, now);
    case VelocitySignal(sample) => VelocitySignalValid(d, sample);
  }

  /** From start-up on, whatever the clients, the timer and the legacy
      service do, the legacy service is never left tracking with no client
      active and no grace period running. */
  lemma {:induction false} RunValid(d: Daemon, inputs: seq<Input>)
    requires Valid(d)
    ensures Valid(Run(d, inputs))
    decreases |inputs|
  {
    if |inputs| > 0 {
      ApplyValid(d, inputs[0]);
      RunValid(Apply(d, inputs[0]).0, inputs[1..]);
    }
  }

  // ---------------------------------------------------------------------
  // From legacy signal to GeoClue2 location

  /** A PositionChanged signal is merged with the stored velocity and
      published: the newest kept location carries the sample's coordinates
      and accuracy, and the stored velocity while it is fresh (no velocity
      otherwise). */
  lemma PositionSignalPublishes(d: Daemon, sample: FixMerger.PositionSample, now: Location.Clock)
    ensures var (d', out) := Apply(d, PositionSignal(sample, now));
      var lv := d.backend.lastVelocity;
      var locs := d'.manager.locations;
      && |locs| > 0 && locs[|locs| - 1].properties.Some?
      && var props := locs[|locs| - 1].properties.value;
      && props.latitude == sample.latitude && props.longitude == sample.longitude
      && props.accuracy == sample.accuracyH
      && (lv.freshness == 0 ==> props.speed == Unknown && props.heading == Unknown)
      && (lv.freshness > 0 ==> props.speed == lv.speed && props.heading == lv.direction)
      && (lv.freshness <= 1 ==> d'.backend.lastVelocity.freshness == 0)
  {
    var (b, fix) := LegacyBackend.OnPositionChanged(d.backend, sample);
    Manager.NewestLocationIsTheFix(d.manager, fix, now);
  }

  /** A PositionChanged signal moves every active client to the new
      location, signalling the move from where it was, and passes over the
      inactive ones. */
  lemma PositionSignalNotifies(d: Daemon, sample: FixMerger.PositionSample, now: Location.Clock, client: string)
    requires client in d.manager.clientsByPath
    ensures var (d', out) := Apply(d, PositionSignal(sample, now));
      var c := d.manager.clientsByPath[client];
      var newPath := Manager.LocationPath(d.manager.nextLocationId + 1);
      && d'.manager.nextLocationId == d.manager.nextLocationId + 1
      && client in d'.manager.clientsByPath
      && (c.active ==> && client in out.updates
                       && out.updates[client] == Client.LocationUpdated(c.location, newPath)
                       && d'.manager.clientsByPath[client] == c.(location := newPath))
      && (!c.active ==> client !in out.updates && d'.manager.clientsByPath[client] == c)
  {
    var fix := LegacyBackend.OnPositionChanged(d.backend, sample).1;
    if d.manager.clientsByPath[client].active {
      Manager.PublishReachesActive(d.manager, client, fix, now);
    } else {
      Manager.PublishPassesOverInactive(d.manager, client, fix, now);
    }
  }

  /** A VelocityChanged signal only refreshes the stored velocity: nothing
      is published and the manager is untouched. */
  lemma VelocitySignalStores(d: Daemon, v: FixMerger.VelocitySample)
    ensures var (d', out) := Apply(d, VelocitySignal(v));
      && d'.manager == d.manager && out == Output([], map[])
      && d'.backend.lastVelocity.freshness == 1
      && (!v.speed.NaN? ==> d'.backend.lastVelocity.speed == v.speed)
      && (!v.direction.NaN? ==> d'.backend.lastVelocity.direction == v.direction)
  {
  }

  /** Peer A asks for a client and starts it: the manager counts one active
      client, and the legacy service is set up and started with the calls
      of a complete set-up. */
  lemma FirstClientStartsService(peer: string, masterClient: string, stop: LegacyBackend.StopReplies)
    requires masterClient != ""
    ensures var d1 := Apply(Boot(true), Request(Manager.GetClient(peer), LegacyBackend.AllSucceed(masterClient), stop)).0;
      var (d2, out) := Apply(d1, Request(Manager.StartClientEvent(Manager.ClientPath(1)),
                                         LegacyBackend.AllSucceed(masterClient), stop));
      && Manager.ClientPath(1) in d2.manager.clientsByPath
      && d2.manager.clientsByPath[Manager.ClientPath(1)].active
      && d2.manager.activeClients == 1 && d2.manager.inUse
      && d2.backend.tracking && d2.backend.client == Some(masterClient)
      && out.calls == LegacyBackend.SetupCalls(1, masterClient)
  {
    var d0 := Boot(true);
    var d1 := Apply(d0, Request(Manager.GetClient(peer), LegacyBackend.AllSucceed(masterClient), stop)).0;
    assert d1.backend == d0.backend;
    assert d1.manager == Manager.CreateClientForPeer(d0.manager, peer, true).manager;
    var path := Manager.ClientPath(1);
    var s := Manager.StartClient(d1.manager, path);
    assert s.effects == [Manager.StartTracking];
    LegacyBackend.FirstStartCalls(masterClient);
  }

  /** A fix at 59 N 24 E with 15 m accuracy and no velocity yet is
      published with speed and heading unknown (-1), and the active client
      is moved to it. */
  lemma FirstFixWithoutVelocity(d: Daemon, client: string, s1: FixMerger.PositionSample, now1: Location.Clock)
    requires Valid(d) && d.backend.lastVelocity.freshness == 0
    requires client in d.manager.clientsByPath && d.manager.clientsByPath[client].active
    requires s1.latitude == Num(59.0) && s1.longitude == Num(24.0) && s1.accuracyH == Num(15.0)
    ensures var (d1, out1) := Apply(d, PositionSignal(s1, now1));
      var locs := d1.manager.locations;
      var newPath := Manager.LocationPath(d.manager.nextLocationId + 1);
      && Valid(d1)
      && |locs| > 0 && locs[|locs| - 1].properties.Some?
      && var first := locs[|locs| - 1].properties.value;
      && first.latitude == Num(59.0) && first.longitude == Num(24.0) && first.accuracy == Num(15.0)
      && first.speed == Num(-1.0) && first.heading == Num(-1.0)
      && client in out1.updates && out1.updates[client].current == newPath
      && client in d1.manager.clientsByPath
      && d1.manager.clientsByPath[client].active && d1.manager.clientsByPath[client].location == newPath
      && d1.manager.nextLocationId == d.manager.nextLocationId + 1
  {
    PositionSignalPublishes(d, s1, now1);
    PositionSignalValid(d, s1, now1);
    PositionSignalNotifies(d, s1, now1, client);
  }

  /** After a velocity of 0.5 m/s heading 185.3 degrees, the next fix
      carries both, and the active client is moved on from the location it
      was at. */
  lemma VelocityReachesNextFix(d: Daemon, client: string, v: FixMerger.VelocitySample,
                               s2: FixMerger.PositionSample, now2: Location.Clock)
    requires client in d.manager.clientsByPath && d.manager.clientsByPath[client].active
    requires v.speed == Num(0.5) && v.direction == Num(185.3)
    ensures var d2 := Apply(d, VelocitySignal(v)).0;
      var (d3, out2) := Apply(d2, PositionSignal(s2, now2));
      var locs := d3.manager.locations;
      && |locs| > 0 && locs[|locs| - 1].properties.Some?
      && var second := locs[|locs| - 1].properties.value;
      && second.speed == Num(0.5) && second.heading == Num(185.3)
      && client in out2.updates
      && out2.updates[client] == Client.LocationUpdated(d.manager.clientsByPath[client].location,
                                                        Manager.LocationPath(d.manager.nextLocationId + 1))
  {
    VelocitySignalStores(d, v);
    var d2 := Apply(d, VelocitySignal(v)).0;
    PositionSignalPublishes(d2, s2, now2);
    PositionSignalNotifies(d2, s2, now2, client);
  }
}
