/** The GeoClue2 Manager (geoclue2_manager.h, geoclue2_manager.cpp): the
    client registry keyed by peer and by path, the active-client counter with
    its InUse property and single grace timer, and the bounded history of
    published locations. Calls into the backend and timer operations are
    returned as effects; the timer firing is an explicit event. */
module Manager {
  import opened Values
  import Decimal
  import Client
  import FixMerger
  import Location

  /** MAX_STORED_LOCATIONS. */
  const MaxStoredLocations: nat := 25
  /** m_grace_timeout_ms: fixed, with no setter. */
  const GraceTimeoutMs: nat := 15000
  /** The AvailableAccuracyLevel property (EXACT). */
  const AvailableAccuracyLevel: nat := 8

  const ClientPathPrefix: string := "/org/freedesktop/GeoClue2/Client/"
  const LocationPathPrefix: string := "/org/freedesktop/GeoClue2/Location/"

  /** The manager's active-changed callback, installed in every client it
      creates. */
  const LifecycleCallback: Client.CallbackId := 0

  /** What the manager asks of the outside world. */
  datatype Effect =
    | StartTracking           // m_backend->start_tracking()
    | StopTracking            // m_backend->stop_tracking()
    | TimerArmed(ms: nat)     // g_timeout_add
    | TimerCancelled          // g_source_remove
    | Warning                 // g_warning on a consistency fault

  datatype Manager = Manager(
    hasBackend: bool,
    clientsByPeer: map<string, string>,           // peer name -> client path
    clientsByPath: map<string, Client.Client>,
    nextClientId: nat,
    nextLocationId: nat,
    locations: seq<Location.LocationObject>,
    activeClients: nat,
    graceTimerArmed: bool,                        // m_grace_timeout_id != 0
    inUse: bool)

  /** A freshly constructed manager: no backend, no clients, ids and count at
      0, no timer pending, not in use. */
  function Init(): (m: Manager)
    ensures m.nextClientId == 0 && m.nextLocationId == 0 && m.activeClients == 0
    ensures !m.graceTimerArmed && !m.inUse && !m.hasBackend
    ensures m.clientsByPeer == map[] && m.clientsByPath == map[] && m.locations == []
  {
    Manager(false, map[], map[], 0, 0, [], 0, false, false)
  }

  /** The object path of the client with the given id. */
  function ClientPath(id: nat): string {
    ClientPathPrefix + Decimal.NatToString(id)
  }

  /** The object path of the location with the given id. */
  function LocationPath(id: nat): string {
    LocationPathPrefix + Decimal.NatToString(id)
  }

  /** The paths of the registered clients that are active. */
  function ActivePaths(clients: map<string, Client.Client>): set<string> {
    set p | p in clients && clients[p].active
  }

  /** No two peers hold the same client. */
  ghost predicate PeerMapInjective(byPeer: map<string, string>) {
    forall a, b :: a in byPeer && b in byPeer && a != b ==> byPeer[a] != byPeer[b]
  }

  /** What holds in every reachable state. */
  ghost predicate Valid(m: Manager) {
    && m.inUse == (m.activeClients > 0)
    && (m.graceTimerArmed ==> m.activeClients == 0)
    && m.activeClients == |ActivePaths(m.clientsByPath)|
    && (forall peer :: peer in m.clientsByPeer ==> m.clientsByPeer[peer] in m.clientsByPath)
    && PeerMapInjective(m.clientsByPeer)
    && (forall p :: p in m.clientsByPath ==>
          m.clientsByPath[p].path == p && m.clientsByPath[p].callback == Some(LifecycleCallback))
    && (forall k: nat :: k > m.nextClientId ==> ClientPath(k) !in m.clientsByPath)
    && |m.locations| <= MaxStoredLocations
  }

  /** A state and what the manager asked for on the way. */
  datatype Step = Step(manager: Manager, effects: seq<Effect>)

  /** update_in_use_property. */
  function UpdateInUse(m: Manager): (r: Manager)
    ensures r == m.(inUse := r.inUse) && (r.inUse <==> m.activeClients > 0)
  {
    m.(inUse := m.activeClients > 0)
  }

  /** client_became_active: cancel any pending grace timer, count the client,
      and start the backend when the first client becomes active. */
  function ClientBecameActive(m: Manager): (s: Step)
    ensures s.manager.activeClients == m.activeClients + 1
    ensures !s.manager.graceTimerArmed && s.manager.inUse
    ensures StartTracking in s.effects <==> m.activeClients == 0 && m.hasBackend
    ensures TimerCancelled in s.effects <==> m.graceTimerArmed
    ensures StopTracking !in s.effects && Warning !in s.effects
    ensures s.manager.clientsByPath == m.clientsByPath && s.manager.clientsByPeer == m.clientsByPeer
    ensures s.manager.hasBackend == m.hasBackend && s.manager.nextClientId == m.nextClientId
    ensures s.manager.locations == m.locations && s.manager.nextLocationId == m.nextLocationId
  {
    var cancel := if m.graceTimerArmed then [TimerCancelled] else [];
    var m1 := UpdateInUse(m.(graceTimerArmed := false, activeClients := m.activeClients + 1));
    Step(m1, cancel + if m1.activeClients == 1 && m.hasBackend then [StartTracking] else [])
  }

  /** client_became_inactive: at count 0 a warned no-op; otherwise uncount the
      client and, when none is left, arm one grace timer, replacing any
      pending one. */
  function ClientBecameInactive(m: Manager): (s: Step)
    ensures m.activeClients == 0 ==> s == Step(m, [Warning])
    ensures m.activeClients > 0 ==>
      && s.manager.activeClients == m.activeClients - 1
      && (s.manager.inUse <==> m.activeClients > 1)
      && (s.manager.graceTimerArmed <==> m.activeClients == 1 || m.graceTimerArmed)
      && (TimerArmed(GraceTimeoutMs) in s.effects <==> m.activeClients == 1)
    ensures StartTracking !in s.effects && StopTracking !in s.effects
    ensures s.manager.clientsByPath == m.clientsByPath && s.manager.clientsByPeer == m.clientsByPeer
    ensures s.manager.hasBackend == m.hasBackend && s.manager.nextClientId == m.nextClientId
    ensures s.manager.locations == m.locations && s.manager.nextLocationId == m.nextLocationId
  {
    if m.activeClients == 0 then Step(m, [Warning])
    else
      var m1 := UpdateInUse(m.(activeClients := m.activeClients - 1));
      if m1.activeClients == 0 then
        Step(m1.(graceTimerArmed := true),
             (if m.graceTimerArmed then [TimerCancelled] else []) + [TimerArmed(GraceTimeoutMs)])
      else Step(m1, [])
  }

  /** The active-changed callback the manager installs in each client. */
  function OnActiveChanged(m: Manager, n: Option<Client.Notice>): (s: Step)
    ensures n.None? ==> s == Step(m, [])
    ensures StopTracking !in s.effects
  {
    match n
    case None => Step(m, [])
    case Some(notice) => if notice.active then ClientBecameActive(m) else ClientBecameInactive(m)
  }

  /** on_grace_timeout: the timer slot clears, and the backend stops only when
      no client is active and a backend is set. Without a pending timer there
      is nothing to fire. */
  function GraceTimeout(m: Manager): (s: Step)
    ensures !s.manager.graceTimerArmed
    ensures s.manager == m.(graceTimerArmed := false)
    ensures s.effects == (if m.graceTimerArmed && m.activeClients == 0 && m.hasBackend then [StopTracking] else [])
  {
    if !m.graceTimerArmed then Step(m, [])
    else
      var m1 := m.(graceTimerArmed := false);
      if m.activeClients == 0 && m.hasBackend then Step(m1, [StopTracking]) else Step(m1, [])
  }

  /** The outcome of creating or reusing a client: the manager and the path
      returned to the caller. */
  datatype Created = Created(manager: Manager, path: string)

  /** create_client_for_peer: with `reuse` and a client already held for the
      peer, that client; otherwise a new client under a fresh path,
      registered in both maps, overwriting the peer's entry. */
  function CreateClientForPeer(m: Manager, peer: string, reuse: bool): (r: Created)
    ensures reuse && peer in m.clientsByPeer ==> r == Created(m, m.clientsByPeer[peer])
    ensures !(reuse && peer in m.clientsByPeer) ==>
      && r.path == ClientPath(m.nextClientId + 1)
      && r.manager.nextClientId == m.nextClientId + 1
      && r.manager.clientsByPeer == m.clientsByPeer[peer := r.path]
      && r.path in r.manager.clientsByPath
      && r.manager.clientsByPath == m.clientsByPath[r.path := r.manager.clientsByPath[r.path]]
      && var c := r.manager.clientsByPath[r.path];
         c.path == r.path && !c.active && c.location == Client.NoLocation && c.callback == Some(LifecycleCallback)
    ensures r.manager.activeClients == m.activeClients && r.manager.graceTimerArmed == m.graceTimerArmed
    ensures r.manager.inUse == m.inUse && r.manager.hasBackend == m.hasBackend
    ensures r.manager.locations == m.locations && r.manager.nextLocationId == m.nextLocationId
  {
    if reuse && peer in m.clientsByPeer then Created(m, m.clientsByPeer[peer])
    else
      var id := m.nextClientId + 1;
      var path := ClientPath(id);
      var c := Client.SetActiveChangedCallback(Client.New(path), LifecycleCallback);
      Created(m.(nextClientId := id,
                 clientsByPeer := m.clientsByPeer[peer := path],
                 clientsByPath := m.clientsByPath[path := c]), path)
  }

  /** The peer map without the entries that hold `path`. */
  function DropPeerEntries(byPeer: map<string, string>, path: string): (r: map<string, string>)
    ensures forall peer :: peer in r <==> peer in byPeer && byPeer[peer] != path
    ensures forall peer :: peer in r ==> r[peer] == byPeer[peer]
  {
    map peer | peer in byPeer && byPeer[peer] != path :: byPeer[peer]
  }

  /** remove_client erases the first peer entry holding the client and
      stops looking. On an injective peer map, the one every valid manager
      has, that is the same as dropping every entry that holds it. */
  lemma DropPeerEntriesErasesOne(byPeer: map<string, string>, peer: string)
    requires PeerMapInjective(byPeer) && peer in byPeer
    ensures DropPeerEntries(byPeer, byPeer[peer]) == byPeer - {peer}
  {
  }

  /** remove_client: an unknown path is a warned no-op. Otherwise the client
      leaves both maps, InUse is refreshed, and the client's destructor then
      deactivates it if it was active. */
  function RemoveClient(m: Manager, path: string): (s: Step)
    ensures path !in m.clientsByPath ==> s == Step(m, [Warning])
    ensures path in m.clientsByPath ==>
      && s.manager.clientsByPath == m.clientsByPath - {path}
      && s.manager.clientsByPeer == DropPeerEntries(m.clientsByPeer, path)
      && (m.clientsByPath[path].active && m.clientsByPath[path].callback.Some? ==> s == ClientBecameInactive(UpdateInUse(
            m.(clientsByPath := m.clientsByPath - {path}, clientsByPeer := DropPeerEntries(m.clientsByPeer, path)))))
      && (!m.clientsByPath[path].active ==> s.manager.activeClients == m.activeClients && s.effects == [])
    ensures StartTracking !in s.effects && StopTracking !in s.effects
  {
    if path !in m.clientsByPath then Step(m, [Warning])
    else
      var c := m.clientsByPath[path];
      var m1 := UpdateInUse(m.(clientsByPath := m.clientsByPath - {path},
                               clientsByPeer := DropPeerEntries(m.clientsByPeer, path)));
      OnActiveChanged(m1, Client.Destroy(c))
  }

  /** on_peer_vanished: removes the one client the peer map holds for the
      peer, if any. That client leaves both maps, taking the peer's entry
      with it, and every other registered client stays as it was. */
  function PeerVanished(m: Manager, peer: string): (s: Step)
    ensures peer !in m.clientsByPeer ==> s == Step(m, [])
    ensures peer in m.clientsByPeer && m.clientsByPeer[peer] !in m.clientsByPath ==> s == Step(m, [Warning])
    ensures peer in m.clientsByPeer && m.clientsByPeer[peer] in m.clientsByPath ==>
      var held := m.clientsByPeer[peer];
      && peer !in s.manager.clientsByPeer
      && s.manager.clientsByPath == m.clientsByPath - {held}
      && (forall q :: q in s.manager.clientsByPeer <==> q in m.clientsByPeer && m.clientsByPeer[q] != held)
      && (!m.clientsByPath[held].active ==> s.manager.activeClients == m.activeClients && s.effects == [])
      && (m.clientsByPath[held].active && m.clientsByPath[held].callback.Some? && m.activeClients > 0 ==>
            s.manager.activeClients == m.activeClients - 1)
    ensures StartTracking !in s.effects && StopTracking !in s.effects
  {
    if peer in m.clientsByPeer then RemoveClient(m, m.clientsByPeer[peer]) else Step(m, [])
  }

  /** on_handle_start on the client at `path`, with the callback it triggers. */
  function StartClient(m: Manager, path: string): (s: Step)
    ensures path !in m.clientsByPath ==> s == Step(m, [])
    ensures path in m.clientsByPath ==>
      && s.manager.clientsByPath == m.clientsByPath[path := m.clientsByPath[path].(active := true)]
      && (m.clientsByPath[path].active ==> s == Step(m, []))
      && (!m.clientsByPath[path].active && m.clientsByPath[path].callback.Some? ==>
            s == ClientBecameActive(m.(clientsByPath := s.manager.clientsByPath)))
  {
    if path !in m.clientsByPath then Step(m, [])
    else if m.clientsByPath[path].active then
      assert m.clientsByPath[path := m.clientsByPath[path].(active := true)] == m.clientsByPath;
      Step(m, [])
    else
      var (c, n) := Client.Start(m.clientsByPath[path]);
      OnActiveChanged(m.(clientsByPath := m.clientsByPath[path := c]), n)
  }

  /** on_handle_stop on the client at `path`, with the callback it triggers. */
  function StopClient(m: Manager, path: string): (s: Step)
    ensures path !in m.clientsByPath ==> s == Step(m, [])
    ensures path in m.clientsByPath ==>
      && s.manager.clientsByPath == m.clientsByPath[path := m.clientsByPath[path].(active := false)]
      && (!m.clientsByPath[path].active ==> s == Step(m, []))
      && (m.clientsByPath[path].active && m.clientsByPath[path].callback.Some? ==>
            s == ClientBecameInactive(m.(clientsByPath := s.manager.clientsByPath)))
  {
    if path !in m.clientsByPath then Step(m, [])
    else if !m.clientsByPath[path].active then
      assert m.clientsByPath[path := m.clientsByPath[path].(active := false)] == m.clientsByPath;
      Step(m, [])
    else
      var (c, n) := Client.Stop(m.clientsByPath[path]);
      OnActiveChanged(m.(clientsByPath := m.clientsByPath[path := c]), n)
  }

  /** The pop_front loop: drop the oldest locations until at most
      MAX_STORED_LOCATIONS remain. */
  function TrimHistory(h: seq<Location.LocationObject>): (r: seq<Location.LocationObject>)
    ensures |r| == if |h| > MaxStoredLocations then MaxStoredLocations else |h|
    ensures r == h[|h| - |r|..]
    decreases |h|
  {
    if |h| > MaxStoredLocations then TrimHistory(h[1..]) else h
  }

  function Min(a: nat, b: nat): nat {
    if a < b then a else b
  }

  /** push_back followed by the trimming loop: the new location is last,
      preceded by as many of the newest earlier ones as fit in 25. */
  function Remember(h: seq<Location.LocationObject>, loc: Location.LocationObject): (r: seq<Location.LocationObject>)
    ensures |r| == Min(MaxStoredLocations, |h| + 1)
    ensures r[|r| - 1] == loc
    ensures r[..|r| - 1] == h[|h| + 1 - |r|..]
  {
    var all := h + [loc];
    var r := if |all| > MaxStoredLocations then all[|all| - MaxStoredLocations..] else all;
    assert r[..|r| - 1] == all[|h| + 1 - |r|..|h|] == h[|h| + 1 - |r|..];
    r
  }

  /** Remember is what push_back followed by the pop_front loop leaves. */
  lemma RememberIsTrimLoop(h: seq<Location.LocationObject>, loc: Location.LocationObject)
    ensures Remember(h, loc) == TrimHistory(h + [loc])
  {
  }

  /** The outcome of a position update: the manager and, for every client
      that was sent one, its LocationUpdated signal. */
  datatype Published = Published(manager: Manager, updates: map<string, Client.LocationUpdated>)

  /** notify_location_update on every registered client: the active ones
      move to `path`, the rest stay as they are. */
  function NotifyAll(clients: map<string, Client.Client>, path: string): (r: map<string, Client.Client>)
    ensures r.Keys == clients.Keys
    ensures forall p :: p in clients ==> r[p] == Client.NotifyLocationUpdate(clients[p], path).0
    ensures ActivePaths(r) == ActivePaths(clients)
  {
    var r := map p | p in clients :: Client.NotifyLocationUpdate(clients[p], path).0;
    assert ActivePaths(r) == ActivePaths(clients);
    r
  }

  /** The LocationUpdated signals those clients emit: one per active client,
      from its previous Location to `path`. */
  function SignalsOf(clients: map<string, Client.Client>, path: string): (r: map<string, Client.LocationUpdated>)
    ensures forall p :: p in r <==> p in clients && clients[p].active
    ensures forall p :: p in r ==> r[p] == Client.LocationUpdated(clients[p].location, path)
  {
    map p | p in clients && clients[p].active :: Client.LocationUpdated(clients[p].location, path)
  }

  /** handle_position_update: build location number previous-id + 1 from the
      fix, keep it in the history, hand its path to every active client, and
      trim the history. */
  function HandlePositionUpdate(m: Manager, pos: FixMerger.Position, now: Location.Clock): (r: Published)
    ensures r.manager.nextLocationId == m.nextLocationId + 1
    ensures var locs := r.manager.locations;
      && |locs| == Min(MaxStoredLocations, |m.locations| + 1)
      && locs[..|locs| - 1] == m.locations[|m.locations| + 1 - |locs|..]
      && var newest := locs[|locs| - 1];
      && newest.path == LocationPath(m.nextLocationId + 1) && newest.exported && newest.properties.Some?
      && newest.properties.value.latitude == pos.latitude && newest.properties.value.longitude == pos.longitude
      && newest.properties.value.accuracy == pos.accuracy && newest.properties.value.altitude == pos.altitude
      && newest.properties.value.speed == pos.speed && newest.properties.value.heading == pos.heading
    ensures r.updates.Keys == ActivePaths(m.clientsByPath)
    ensures forall p :: p in r.updates ==>
      r.updates[p] == Client.LocationUpdated(m.clientsByPath[p].location, LocationPath(m.nextLocationId + 1))
    ensures r.manager.clientsByPath.Keys == m.clientsByPath.Keys
    ensures forall p :: p in m.clientsByPath ==>
      r.manager.clientsByPath[p] == if m.clientsByPath[p].active
        then m.clientsByPath[p].(location := LocationPath(m.nextLocationId + 1)) else m.clientsByPath[p]
    ensures r.manager == m.(nextLocationId := r.manager.nextLocationId, locations := r.manager.locations,
                            clientsByPath := r.manager.clientsByPath)
  {
    var id := m.nextLocationId + 1;
    var path := LocationPath(id);
    var loc := Location.SetFromPosition(Location.NewLocation(path), pos, now).0;
    Published(m.(nextLocationId := id, locations := Remember(m.locations, loc),
                 clientsByPath := NotifyAll(m.clientsByPath, path)),
              SignalsOf(m.clientsByPath, path))
  }

  /** set_backend: only records the backend. Nothing is started, even with
      clients already active, and the invariant is kept. */
  function SetBackend(m: Manager, present: bool): (r: Manager)
    ensures r.hasBackend == present
    ensures r.(hasBackend := m.hasBackend) == m
    ensures Valid(m) ==> Valid(r)
  {
    m.(hasBackend := present)
  }

  /** Everything that can happen to the manager. */
  datatype Event =
    | GetClient(peer: string)
    | CreateClient(peer: string)
    | DeleteClient(path: string)
    | AddAgent(agent: string)
    | StartClientEvent(path: string)
    | StopClientEvent(path: string)
    | PeerVanishedEvent(peer: string)
    | PositionUpdate(position: FixMerger.Position, now: Location.Clock)
    | GraceTimerFires
    | SetBackendEvent(present: bool)

  /** One event. The D-Bus replies are not modelled: GetClient and
      CreateClient answer with CreateClientForPeer's path, and DeleteClient
      and AddAgent answer success whatever happened, so neither reply
      carries anything the state does not. */
  function Apply(m: Manager, e: Event): (s: Step)
    ensures e.AddAgent? ==> s == Step(m, [])
    ensures e.DeleteClient? ==> s == RemoveClient(m, e.path)
    ensures e.GetClient? || e.CreateClient? || e.PositionUpdate? || e.SetBackendEvent? ==> s.effects == []
    ensures e.GetClient? || e.CreateClient? ==> s.manager.activeClients == m.activeClients
    ensures StartTracking in s.effects ==> e.StartClientEvent?
    ensures StopTracking in s.effects ==> e.GraceTimerFires?
  {
    match e
    case GetClient(peer) => Step(CreateClientForPeer(m, peer, true).manager, [])
    case CreateClient(peer) => Step(CreateClientForPeer(m, peer, false).manager, [])
    case DeleteClient(path) => RemoveClient(m, path)
    case AddAgent(_) => Step(m, [])
    case StartClientEvent(path) => StartClient(m, path)
    case StopClientEvent(path) => StopClient(m, path)
    case PeerVanishedEvent(peer) => PeerVanished(m, peer)
    case PositionUpdate(pos, now) => Step(HandlePositionUpdate(m, pos, now).manager, [])
    case GraceTimerFires => GraceTimeout(m)
    case SetBackendEvent(present) => Step(SetBackend(m, present), [])
  }

  /** A run of events with every effect along the way. */
  function Run(m: Manager, events: seq<Event>): Step
    decreases |events|
  {
    if |events| == 0 then Step(m, [])
    else
      var s := Apply(m, events[0]);
      var rest := Run(s.manager, events[1..]);
      Step(rest.manager, s.effects + rest.effects)
  }

  // ---------------------------------------------------------------------
  // Paths

  /** Distinct ids give distinct client paths. */
  lemma ClientPathInjective(a: nat, b: nat)
    requires ClientPath(a) == ClientPath(b)
    ensures a == b
  {
    var n := |ClientPathPrefix|;
    assert ClientPath(a)[n..] == Decimal.NatToString(a);
    assert ClientPath(b)[n..] == Decimal.NatToString(b);
    Decimal.NatToStringInjective(a, b);
  }

  /** Distinct ids give distinct location paths. */
  lemma LocationPathInjective(a: nat, b: nat)
    requires LocationPath(a) == LocationPath(b)
    ensures a == b
  {
    var n := |LocationPathPrefix|;
    assert LocationPath(a)[n..] == Decimal.NatToString(a);
    assert LocationPath(b)[n..] == Decimal.NatToString(b);
    Decimal.NatToStringInjective(a, b);
  }

  // ---------------------------------------------------------------------
  // The active set

  lemma ActivePathsActivate(cs: map<string, Client.Client>, p: string, c: Client.Client)
    requires p in cs && !cs[p].active && c.active
    ensures p !in ActivePaths(cs) && ActivePaths(cs[p := c]) == ActivePaths(cs) + {p}
  {
  }

  lemma ActivePathsDeactivate(cs: map<string, Client.Client>, p: string, c: Client.Client)
    requires p in cs && cs[p].active && !c.active
    ensures p in ActivePaths(cs) && ActivePaths(cs[p := c]) == ActivePaths(cs) - {p}
  {
  }

  lemma ActivePathsAddInactive(cs: map<string, Client.Client>, p: string, c: Client.Client)
    requires p !in cs && !c.active
    ensures ActivePaths(cs[p := c]) == ActivePaths(cs)
  {
  }

  lemma ActivePathsRemove(cs: map<string, Client.Client>, p: string)
    requires p in cs
    ensures ActivePaths(cs - {p}) == ActivePaths(cs) - {p}
    ensures cs[p].active <==> p in ActivePaths(cs)
  {
  }

  // ---------------------------------------------------------------------
  // The invariant is kept by every event

  lemma InitValid()
    ensures Valid(Init())
  {
  }

  /** Creating a client keeps the invariant: the new path is newClient, so
      nothing already registered is overwritten and the new, inactive client
      leaves the active count as it was. */
  lemma CreateClientValid(m: Manager, peer: string, reuse: bool)
    requires Valid(m)
    ensures Valid(CreateClientForPeer(m, peer, reuse).manager)
    ensures CreateClientForPeer(m, peer, reuse).path in CreateClientForPeer(m, peer, reuse).manager.clientsByPath
  {
    if !(reuse && peer in m.clientsByPeer) {
      var r := CreateClientForPeer(m, peer, reuse);
      var id := m.nextClientId + 1;
      assert r.path == ClientPath(id) && r.path !in m.clientsByPath;
      ActivePathsAddInactive(m.clientsByPath, r.path, r.manager.clientsByPath[r.path]);
      forall k: nat | k > r.manager.nextClientId
        ensures ClientPath(k) !in r.manager.clientsByPath
      {
        if ClientPath(k) == r.path {
          ClientPathInjective(k, id);
        }
      }
    }
  }

  lemma StartClientValid(m: Manager, path: string)
    requires Valid(m)
    ensures Valid(StartClient(m, path).manager)
  {
    if path in m.clientsByPath && !m.clientsByPath[path].active {
      var c := Client.Start(m.clientsByPath[path]).0;
      ActivePathsActivate(m.clientsByPath, path, c);
      var m1 := m.(clientsByPath := m.clientsByPath[path := c]);
      assert StartClient(m, path) == ClientBecameActive(m1);
      assert |ActivePaths(m1.clientsByPath)| == m.activeClients + 1;
    } else if path in m.clientsByPath {
      assert m.clientsByPath[path := m.clientsByPath[path]] == m.clientsByPath;
    }
  }

  lemma StopClientValid(m: Manager, path: string)
    requires Valid(m)
    ensures Valid(StopClient(m, path).manager)
  {
    if path in m.clientsByPath && m.clientsByPath[path].active {
      var c := Client.Stop(m.clientsByPath[path]).0;
      ActivePathsDeactivate(m.clientsByPath, path, c);
      var m1 := m.(clientsByPath := m.clientsByPath[path := c]);
      assert StopClient(m, path) == ClientBecameInactive(m1);
      assert |ActivePaths(m1.clientsByPath)| == m.activeClients - 1;
    } else if path in m.clientsByPath {
      assert m.clientsByPath[path := m.clientsByPath[path]] == m.clientsByPath;
    }
  }

  lemma RemoveClientValid(m: Manager, path: string)
    requires Valid(m)
    ensures Valid(RemoveClient(m, path).manager)
  {
    if path in m.clientsByPath {
      ActivePathsRemove(m.clientsByPath, path);
    }
  }

  lemma PositionUpdateValid(m: Manager, pos: FixMerger.Position, now: Location.Clock)
    requires Valid(m)
    ensures Valid(HandlePositionUpdate(m, pos, now).manager)
  {
  }

  /** Every event keeps the invariant. */
  lemma ApplyValid(m: Manager, e: Event)
    requires Valid(m)
    ensures Valid(Apply(m, e).manager)
  {
    match e
    case GetClient(peer) => CreateClientValid(m, peer, true);
    case CreateClient(peer) => CreateClientValid(m, peer, false);
    case DeleteClient(path) => RemoveClientValid(m, path);
    case AddAgent(_) =>
    case StartClientEvent(path) => StartClientValid(m, path);
    case StopClientEvent(path) => StopClientValid(m, path);
    case PeerVanishedEvent(peer) =>
      if peer in m.clientsByPeer {
        RemoveClientValid(m, m.clientsByPeer[peer]);
      }
    case PositionUpdate(pos, now) => PositionUpdateValid(m, pos, now);
    case GraceTimerFires =>
    case SetBackendEvent(_) =>
  }

  /** Every run keeps the invariant: InUse is exactly "some client is active",
      the active count is the number of active registered clients, a grace
      timer is pending only while none is, and at most 25 locations are kept. */
  lemma {:induction false} RunValid(m: Manager, events: seq<Event>)
    requires Valid(m)
    ensures Valid(Run(m, events).manager)
    decreases |events|
  {
    if |events| > 0 {
      ApplyValid(m, events[0]);
      RunValid(Apply(m, events[0]).manager, events[1..]);
    }
  }

  // ---------------------------------------------------------------------
  // Backend lifecycle

  /** The backend is told to stop only by the grace timer firing, and only
      when a timer was pending and a backend is set; a pending timer implies
      no client is active. */
  lemma StopOnlyOnQuietGrace(m: Manager, e: Event)
    requires Valid(m)
    ensures StopTracking in Apply(m, e).effects <==> e == GraceTimerFires && m.graceTimerArmed && m.hasBackend
    ensures StopTracking in Apply(m, e).effects ==> m.activeClients == 0
  {
  }

  /** The backend is told to start exactly when a start request activates an
      inactive client while none was active and a backend is set. */
  lemma StartOnlyOnFirstActivation(m: Manager, e: Event)
    requires Valid(m)
    ensures StartTracking in Apply(m, e).effects <==>
      && e.StartClientEvent? && e.path in m.clientsByPath && !m.clientsByPath[e.path].active
      && m.activeClients == 0 && m.hasBackend
  {
    match e
    case StartClientEvent(path) =>
      if path in m.clientsByPath && !m.clientsByPath[path].active {
        var c := Client.Start(m.clientsByPath[path]).0;
        assert StartClient(m, path) == ClientBecameActive(m.(clientsByPath := m.clientsByPath[path := c]));
      }
    case StopClientEvent(path) =>
      if path in m.clientsByPath && m.clientsByPath[path].active {
        var c := Client.Stop(m.clientsByPath[path]).0;
        assert StopClient(m, path) == ClientBecameInactive(m.(clientsByPath := m.clientsByPath[path := c]));
      }
    case _ =>
  }

  /** The manager never goes quiet without telling the backend: after any
      event, some client is active, a grace timer is pending, or the event
      stopped the backend. */
  lemma QuietOnlyAfterStop(m: Manager, e: Event)
    requires Valid(m) && m.hasBackend && (m.activeClients > 0 || m.graceTimerArmed)
    ensures var s := Apply(m, e);
      s.manager.activeClients > 0 || s.manager.graceTimerArmed || StopTracking in s.effects
  {
    match e
    case StopClientEvent(path) =>
      if path in m.clientsByPath && m.clientsByPath[path].active {
        ActivePathsRemove(m.clientsByPath, path);
      }
    case DeleteClient(path) =>
      if path in m.clientsByPath {
        ActivePathsRemove(m.clientsByPath, path);
      }
    case PeerVanishedEvent(peer) =>
      if peer in m.clientsByPeer {
        ActivePathsRemove(m.clientsByPath, m.clientsByPeer[peer]);
      }
    case _ =>
  }

  /** The last active client stopping arms the 15 s grace timer; when it
      fires with nobody active again, the backend is stopped. */
  lemma QuietGraceStops(m: Manager, path: string)
    requires Valid(m) && m.hasBackend
    requires path in m.clientsByPath && m.clientsByPath[path].active && m.activeClients == 1
    ensures var stopped := StopClient(m, path);
      var fired := GraceTimeout(stopped.manager);
      && stopped.effects == [TimerArmed(GraceTimeoutMs)] && stopped.manager.graceTimerArmed
      && fired.effects == [StopTracking]
      && fired.manager.activeClients == 0 && !fired.manager.inUse && !fired.manager.graceTimerArmed
  {
  }

  /** A client that starts again within the grace period cancels the pending
      timer, so when the timer would have fired nothing stops the backend;
      the repeated start request to the backend is the only trace left. */
  lemma ReactivationWithinGrace(m: Manager, path: string)
    requires Valid(m) && m.hasBackend
    requires path in m.clientsByPath && m.clientsByPath[path].active && m.activeClients == 1
    ensures var stopped := StopClient(m, path);
      var restarted := StartClient(stopped.manager, path);
      var fired := GraceTimeout(restarted.manager);
      && stopped.effects == [TimerArmed(GraceTimeoutMs)]
      && restarted.effects == [TimerCancelled, StartTracking]
      && fired == Step(restarted.manager, [])
      && fired.manager.activeClients == 1 && fired.manager.inUse
  {
    var stopped := StopClient(m, path);
    assert stopped.manager.clientsByPath[path] == m.clientsByPath[path].(active := false);
  }

  // ---------------------------------------------------------------------
  // The location history

  /** A history whose entries are numbered consecutively up to `last`, the
      last id handed out. */
  ghost predicate Contiguous(h: seq<Location.LocationObject>, last: nat) {
    && |h| <= last
    && |h| <= MaxStoredLocations
    && forall i :: 0 <= i < |h| ==> h[i].path == LocationPath(last + i + 1 - |h|)
  }

  /** The kept locations are the newest ones, numbered consecutively up to
      the last id handed out. */
  ghost predicate HistoryContiguous(m: Manager) {
    Contiguous(m.locations, m.nextLocationId)
  }

  /** A history made of a suffix of a contiguous one followed by the next
      location is contiguous again. */
  lemma ExtendContiguous(h: seq<Location.LocationObject>, last: nat, r: seq<Location.LocationObject>)
    requires Contiguous(h, last)
    requires 0 < |r| <= MaxStoredLocations && |r| <= |h| + 1
    requires r[|r| - 1].path == LocationPath(last + 1)
    requires r[..|r| - 1] == h[|h| + 1 - |r|..]
    ensures Contiguous(r, last + 1)
  {
    var n := |r|;
    var k := |h| + 1 - n;
    forall i | 0 <= i < n
      ensures r[i].path == LocationPath(last + 1 + i + 1 - n)
    {
      if i < n - 1 {
        assert r[i] == r[..n - 1][i] == h[k + i];
        assert last + (k + i) + 1 - |h| == last + 1 + i + 1 - n;
      } else {
        assert last + 1 + i + 1 - n == last + 1;
      }
    }
  }

  /** Remembering location number last + 1 keeps the numbering consecutive. */
  lemma RememberContiguous(h: seq<Location.LocationObject>, last: nat, loc: Location.LocationObject)
    requires Contiguous(h, last) && loc.path == LocationPath(last + 1)
    ensures Contiguous(Remember(h, loc), last + 1)
  {
    ExtendContiguous(h, last, Remember(h, loc));
  }


  /** One publication appends the new location and drops the oldest one once
      25 are kept. */
  lemma PositionUpdateHistory(m: Manager, pos: FixMerger.Position, now: Location.Clock)
    requires HistoryContiguous(m)
    ensures var m' := HandlePositionUpdate(m, pos, now).manager;
      && HistoryContiguous(m')
      && |m'.locations| == Min(MaxStoredLocations, |m.locations| + 1)
  {
    var path := LocationPath(m.nextLocationId + 1);
    RememberContiguous(m.locations, m.nextLocationId, Location.SetFromPosition(Location.NewLocation(path), pos, now).0);
  }

  /** A run made only of position updates. */
  predicate AllPositionUpdates(events: seq<Event>)
    decreases |events|
  {
    |events| == 0 || (events[0].PositionUpdate? && AllPositionUpdates(events[1..]))
  }

  /** A run that starts with a position update publishes it first. */
  lemma RunFirstPosition(m: Manager, events: seq<Event>)
    requires |events| > 0 && events[0].PositionUpdate?
    ensures var next := HandlePositionUpdate(m, events[0].position, events[0].now).manager;
      Run(m, events) == Run(next, events[1..])
  {
    var next := HandlePositionUpdate(m, events[0].position, events[0].now).manager;
    assert Apply(m, events[0]) == Step(next, []);
    assert Run(m, events).effects == [] + Run(next, events[1..]).effects;
  }

  /** A run of publications: each takes the next location id, and the
      history keeps the newest min(25, kept + published) of them. */
  lemma {:induction false} PositionRunHistory(m: Manager, events: seq<Event>)
    requires HistoryContiguous(m) && AllPositionUpdates(events)
    ensures var m' := Run(m, events).manager;
      && HistoryContiguous(m')
      && m'.nextLocationId == m.nextLocationId + |events|
      && |m'.locations| == Min(MaxStoredLocations, |m.locations| + |events|)
      && Run(m, events).effects == []
    decreases |events|
  {
    if |events| > 0 {
      var e := events[0];
      PositionUpdateHistory(m, e.position, e.now);
      RunFirstPosition(m, events);
      PositionRunHistory(HandlePositionUpdate(m, e.position, e.now).manager, events[1..]);
    }
  }

  /** After 25 or more fixes, a fresh manager keeps exactly the 25 newest
      locations, numbered N-24 .. N for N fixes. */
  lemma HistoryAfterManyFixes(events: seq<Event>)
    requires AllPositionUpdates(events) && |events| >= MaxStoredLocations
    ensures var locs := Run(Init(), events).manager.locations;
      && |locs| == MaxStoredLocations
      && forall i :: 0 <= i < |locs| ==> locs[i].path == LocationPath(|events| - 24 + i)
  {
    PositionRunHistory(Init(), events);
  }

  // ---------------------------------------------------------------------
  // Broadcast

  /** The newest kept location is the one just built from the fix, under
      the next location path, with the fix's coordinates, accuracy, speed
      and heading. */
  lemma NewestLocationIsTheFix(m: Manager, pos: FixMerger.Position, now: Location.Clock)
    ensures var locs := HandlePositionUpdate(m, pos, now).manager.locations;
      && |locs| > 0
      && var newest := locs[|locs| - 1];
      && newest.path == LocationPath(m.nextLocationId + 1) && newest.exported
      && newest.properties.Some?
      && newest.properties.value.latitude == pos.latitude
      && newest.properties.value.longitude == pos.longitude
      && newest.properties.value.accuracy == pos.accuracy
      && newest.properties.value.speed == pos.speed
      && newest.properties.value.heading == pos.heading
  {
    var path := LocationPath(m.nextLocationId + 1);
    var loc := Location.SetFromPosition(Location.NewLocation(path), pos, now).0;
    assert HandlePositionUpdate(m, pos, now).manager.locations == Remember(m.locations, loc);
  }

  /** A fix passes over an inactive client: it sends it nothing and leaves
      it as it was. */
  lemma PublishPassesOverInactive(m: Manager, path: string, pos: FixMerger.Position, now: Location.Clock)
    requires path in m.clientsByPath && !m.clientsByPath[path].active
    ensures var r := HandlePositionUpdate(m, pos, now);
      && path !in r.updates
      && path in r.manager.clientsByPath && r.manager.clientsByPath[path] == m.clientsByPath[path]
  {
  }

  /** A fix reaches an active client: its Location moves to the new
      location's path and it signals the move from its previous one. */
  lemma PublishReachesActive(m: Manager, path: string, pos: FixMerger.Position, now: Location.Clock)
    requires path in m.clientsByPath && m.clientsByPath[path].active
    ensures var r := HandlePositionUpdate(m, pos, now);
      var newPath := LocationPath(m.nextLocationId + 1);
      && path in r.updates
      && r.updates[path] == Client.LocationUpdated(m.clientsByPath[path].location, newPath)
      && path in r.manager.clientsByPath && r.manager.clientsByPath[path] == m.clientsByPath[path].(location := newPath)
      && r.manager.nextLocationId == m.nextLocationId + 1
  {
  }

  /** A new client is passed over by fixes until it is started; the first
      fix after that reaches it as LocationUpdated("/", new location). */
  lemma StartedClientReceivesNextFix(m: Manager, peer: string, pos1: FixMerger.Position, now1: Location.Clock,
                                     pos2: FixMerger.Position, now2: Location.Clock)
    ensures var c := CreateClientForPeer(m, peer, false);
      var p1 := HandlePositionUpdate(c.manager, pos1, now1);
      var s := StartClient(p1.manager, c.path);
      var p2 := HandlePositionUpdate(s.manager, pos2, now2);
      && c.path !in p1.updates
      && c.path in p2.updates
      && p2.updates[c.path] == Client.LocationUpdated(Client.NoLocation, LocationPath(m.nextLocationId + 2))
  {
    var c := CreateClientForPeer(m, peer, false);
    var p1 := HandlePositionUpdate(c.manager, pos1, now1);
    PublishPassesOverInactive(c.manager, c.path, pos1, now1);
    StartClientMarksActive(p1.manager, c.path);
    var s := StartClient(p1.manager, c.path);
    PublishReachesActive(s.manager, c.path, pos2, now2);
  }

  /** Starting a known client sets its flag and touches no location state. */
  lemma StartClientMarksActive(m: Manager, path: string)
    requires path in m.clientsByPath
    ensures var s := StartClient(m, path);
      && path in s.manager.clientsByPath
      && s.manager.clientsByPath[path] == m.clientsByPath[path].(active := true)
      && s.manager.nextLocationId == m.nextLocationId
  {
  }

  // ---------------------------------------------------------------------
  // Registry

  /** GetClient hands a peer the client it already holds, unchanged. */
  lemma GetClientReuses(m: Manager, peer: string)
    ensures var r1 := CreateClientForPeer(m, peer, true);
      && r1.manager.clientsByPeer[peer] == r1.path
      && CreateClientForPeer(r1.manager, peer, true) == Created(r1.manager, r1.path)
  {
  }

  /** CreateClient always makes a fresh client; the peer's previous client
      stays registered by path, but no peer holds it any more. */
  lemma CreateClientOrphansPrevious(m: Manager, peer: string)
    requires Valid(m) && peer in m.clientsByPeer
    ensures var prev := m.clientsByPeer[peer];
      var r := CreateClientForPeer(m, peer, false);
      && r.path !in m.clientsByPath && r.path != prev
      && prev in r.manager.clientsByPath && r.manager.clientsByPath[prev] == m.clientsByPath[prev]
      && forall q :: q in r.manager.clientsByPeer ==> r.manager.clientsByPeer[q] != prev
  {
  }

  /** Removing an active client deactivates it through its destructor, which
      lowers the count once; removing it again only warns. */
  lemma RemoveActiveClientOnce(m: Manager, path: string)
    requires Valid(m) && path in m.clientsByPath && m.clientsByPath[path].active
    ensures var s := RemoveClient(m, path);
      && s.manager.activeClients == m.activeClients - 1
      && (s.manager.graceTimerArmed <==> m.activeClients == 1)
      && (s.manager.inUse <==> m.activeClients > 1)
      && path !in s.manager.clientsByPath
      && RemoveClient(s.manager, path) == Step(s.manager, [Warning])
  {
    ActivePathsRemove(m.clientsByPath, path);
  }

  /** A vanished peer loses the client the peer map holds for it, and only
      that one; a second notice for the same peer does nothing. */
  lemma PeerVanishedOnce(m: Manager, peer: string)
    requires Valid(m)
    ensures var s := PeerVanished(m, peer);
      && peer !in s.manager.clientsByPeer
      && PeerVanished(s.manager, peer) == Step(s.manager, [])
      && (peer in m.clientsByPeer ==> s.manager.clientsByPath == m.clientsByPath - {m.clientsByPeer[peer]})
      && (peer !in m.clientsByPeer ==> s.manager == m)
  {
  }

  /** A peer that called GetClient and then CreateClient, started its first
      client and vanished: only the second client, the one the peer map
      holds, is removed. The first stays registered and active, so the
      backend keeps running. */
  lemma VanishedPeerLeavesOverwrittenClient(m: Manager, peer: string)
    requires Valid(m) && m.hasBackend && m.activeClients == 0 && !m.graceTimerArmed
    requires peer !in m.clientsByPeer
    ensures var got := CreateClientForPeer(m, peer, true);
      var created := CreateClientForPeer(got.manager, peer, false);
      var started := StartClient(created.manager, got.path);
      var vanished := PeerVanished(started.manager, peer);
      && got.path != created.path
      && started.effects == [StartTracking] && vanished.effects == []
      && got.path in vanished.manager.clientsByPath && vanished.manager.clientsByPath[got.path].active
      && created.path !in vanished.manager.clientsByPath
      && vanished.manager.activeClients == 1 && vanished.manager.inUse
  {
    var got := CreateClientForPeer(m, peer, true);
    var created := CreateClientForPeer(got.manager, peer, false);
    if got.path == created.path {
      ClientPathInjective(m.nextClientId + 1, m.nextClientId + 2);
    }
    var started := StartClient(created.manager, got.path);
    assert started.manager.clientsByPeer[peer] == created.path;
    var vanished := PeerVanished(started.manager, peer);
    assert vanished == RemoveClient(started.manager, created.path);
    assert !started.manager.clientsByPath[created.path].active;
  }
}
