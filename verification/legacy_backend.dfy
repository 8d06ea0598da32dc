/** The client of the legacy GeoClue1 service (geoclue1_backend.h,
    geoclue1_backend.cpp): the tracking flag, the four proxy slots, the three
    signal-subscription ids, and every outward D-Bus call it makes, recorded
    in order. Each call's or proxy construction's success is an input. */
module LegacyBackend {
  import opened Values
  import FixMerger

  /** A concrete provider announced by PositionProviderChanged. */
  datatype ProviderId = ProviderId(service: string, path: string)

  /** The object an AddReference/RemoveReference call is sent to. */
  datatype RefTarget = MasterClientRef(clientPath: string) | ProviderRef(provider: ProviderId)

  /** The signal a subscription listens to. */
  datatype SignalKind =
    | ProviderChangedSignal(clientPath: string)
    | PositionChangedSignal(provider: ProviderId)
    | VelocityChangedSignal(provider: ProviderId)

  /** One outward call: the legacy service's methods, with whether the call
      succeeded where the daemon looks at the reply, and the bus-level signal
      (un)subscriptions. */
  datatype Call =
    | MasterCreate
    | SetRequirements(accuracyLevel: int, time: int, requireUpdates: bool, allowedResources: int)
    | PositionStart
    | AddReference(target: RefTarget, ok: bool)
    | RemoveReference(target: RefTarget, ok: bool)
    | Subscribe(id: nat, signal: SignalKind)
    | Unsubscribe(id: nat)

  /** The requirements the daemon asks for: no accuracy, no time limit,
      updates required, every resource allowed ((1 << 10) - 1). */
  const RequiredAccuracy: int := 0
  const RequiredTime: int := 0
  const AllResources: int := 0x3FF

  datatype Backend = Backend(
    connected: bool,                  // the session-bus connection exists
    tracking: bool,                   // m_tracking
    master: bool,                     // m_master_proxy
    client: Option<string>,           // m_client_proxy, by its object path
    provider: Option<ProviderId>,     // m_provider_proxy
    position: Option<ProviderId>,     // m_position_proxy
    providerSubscription: nat,        // m_position_provider_subscription_id
    positionSubscription: nat,        // m_position_subscription_id
    velocitySubscription: nat,        // m_velocity_subscription_id
    nextSubscription: nat,            // the next id the connection hands out
    lastVelocity: FixMerger.LastVelocity)

  /** A newly constructed backend: nothing held, nothing subscribed, the
      stored velocity stale and unknown. */
  function Init(connected: bool): (b: Backend)
    ensures Idle(b) && Unsubscribed(b) && b.lastVelocity == FixMerger.InitialLastVelocity
    ensures b.connected == connected
  {
    Backend(connected, false, false, None, None, None, 0, 0, 0, 1, FixMerger.InitialLastVelocity)
  }

  /** No proxy held and not tracking. */
  predicate Idle(b: Backend) {
    !b.tracking && !b.master && b.client.None? && b.provider.None? && b.position.None?
  }

  /** Every subscription id reads 0, "not subscribed". */
  predicate Unsubscribed(b: Backend) {
    b.providerSubscription == 0 && b.positionSubscription == 0 && b.velocitySubscription == 0
  }

  /** What holds in every reachable state. */
  predicate Wf(b: Backend) {
    && (b.client.Some? ==> b.master)
    && (b.tracking ==> b.client.Some?)
    && (b.position.Some? ==> b.provider == b.position)
    && b.nextSubscription >= 1
    && b.providerSubscription < b.nextSubscription
    && b.positionSubscription < b.nextSubscription
    && b.velocitySubscription < b.nextSubscription
    && FixMerger.Sanitized(b.lastVelocity)
  }

  /** A state and the calls that led to it. */
  datatype Step = Step(state: Backend, calls: seq<Call>)

  /** The outcome of ensure_master_client. */
  datatype Ensured = Ensured(ok: bool, state: Backend, calls: seq<Call>)

  /** The reply to Master.Create: a failure, or the new client's path. */
  datatype CreateReply = CreateFailed | Created(clientPath: string)

  /** Successes of the steps of ensure_master_client. */
  datatype StartReplies = StartReplies(
    masterProxy: bool,
    create: CreateReply,
    clientProxy: bool,
    clientRefProxy: bool,
    addReference: bool,
    setRequirements: bool,
    positionStart: bool)

  /** Successes of the steps of destroy_master_client. */
  datatype StopReplies = StopReplies(
    providerRemoveReference: bool,
    clientRefProxy: bool,
    clientRemoveReference: bool)

  /** Successes of the steps of on_position_provider_changed. */
  datatype ProviderReplies = ProviderReplies(
    oldRemoveReference: bool,
    providerProxy: bool,
    addReference: bool,
    positionProxy: bool)

  /** Every step succeeds; Master.Create hands out `clientPath`. */
  function AllSucceed(clientPath: string): StartReplies {
    StartReplies(true, Created(clientPath), true, true, true, true, true)
  }

  /** The calls of a complete, successful set-up of the master client. */
  function SetupCalls(id: nat, clientPath: string): seq<Call> {
    [ MasterCreate,
      Subscribe(id, ProviderChangedSignal(clientPath)),
      AddReference(MasterClientRef(clientPath), true),
      SetRequirements(RequiredAccuracy, RequiredTime, true, AllResources),
      PositionStart ]
  }

  /** ensure_master_client: reuse a complete master client, or build one:
      master proxy, Master.Create, PositionProviderChanged subscription,
      MasterClient proxy, best-effort AddReference, SetRequirements,
      PositionStart. Any failure returns false and keeps what was built. */
  function EnsureMasterClient(b: Backend, r: StartReplies): (e: Ensured)
    ensures b.master && b.client.Some? ==> e == Ensured(true, b, [])
    ensures e.ok ==> e.state.master && e.state.client.Some?
    ensures e.state.tracking == b.tracking && e.state.provider == b.provider && e.state.position == b.position
    ensures e.state.lastVelocity == b.lastVelocity
    ensures forall c :: c in e.calls ==> !c.RemoveReference? && !c.Unsubscribe?
  {
    if b.master && b.client.Some? then Ensured(true, b, [])
    else if !b.connected then Ensured(false, b, [])
    else if !b.master && !r.masterProxy then Ensured(false, b, [])
    else
      var b1 := b.(master := true);
      match r.create
      case CreateFailed => Ensured(false, b1, [MasterCreate])
      case Created(path) =>
        if path == "" then Ensured(false, b1, [MasterCreate])
        else
          var id := b1.nextSubscription;
          var b2 := b1.(providerSubscription := id, nextSubscription := id + 1);
          var c2 := [MasterCreate, Subscribe(id, ProviderChangedSignal(path))];
          if !r.clientProxy then Ensured(false, b2, c2)
          else
            var b3 := b2.(client := Some(path));
            var c3 := c2 + (if r.clientRefProxy then [AddReference(MasterClientRef(path), r.addReference)] else []);
            var c4 := c3 + [SetRequirements(RequiredAccuracy, RequiredTime, true, AllResources)];
            if !r.setRequirements then Ensured(false, b3, c4)
            else Ensured(r.positionStart, b3, c4 + [PositionStart])
  }

  /** start_tracking: nothing while tracking; otherwise tracking exactly when
      ensure_master_client succeeds. */
  function StartTracking(b: Backend, r: StartReplies): (s: Step)
    ensures b.tracking ==> s == Step(b, [])
    ensures Wf(b) ==> Wf(s.state)
    ensures !b.tracking ==> s.state.tracking == EnsureMasterClient(b, r).ok
    ensures !b.tracking ==> s.calls == EnsureMasterClient(b, r).calls
  {
    if b.tracking then Step(b, [])
    else
      var e := EnsureMasterClient(b, r);
      Step(e.state.(tracking := e.ok), e.calls)
  }

  /** The Unsubscribe call for a subscription id, if it is set. */
  function UnsubscribeIfSet(id: nat): seq<Call> {
    if id != 0 then [Unsubscribe(id)] else []
  }

  /** unsubscribe_signals: drop the position, velocity and provider-changed
      subscriptions, in that order, and zero their ids. */
  function UnsubscribeSignals(b: Backend): (s: Step)
    ensures Unsubscribed(s.state)
    ensures s.state == b.(providerSubscription := 0, positionSubscription := 0, velocitySubscription := 0)
    ensures forall c :: c in s.calls ==> c.Unsubscribe? && c.id != 0
    ensures forall id :: id != 0 && id in {b.providerSubscription, b.positionSubscription, b.velocitySubscription}
              ==> Unsubscribe(id) in s.calls
  {
    Step(b.(providerSubscription := 0, positionSubscription := 0, velocitySubscription := 0),
         UnsubscribeIfSet(b.positionSubscription) + UnsubscribeIfSet(b.velocitySubscription)
         + UnsubscribeIfSet(b.providerSubscription))
  }

  /** destroy_master_client: release the position proxy, RemoveReference on
      the provider, RemoveReference on the MasterClient (when a proxy for it
      can be made), release master; every step is attempted whatever the
      earlier ones returned. */
  function DestroyMasterClient(b: Backend, r: StopReplies): (s: Step)
    ensures Idle(s.state)
    ensures s.state == b.(tracking := false, master := false, client := None, provider := None, position := None)
  {
    var c1 := if b.provider.Some? then [RemoveReference(ProviderRef(b.provider.value), r.providerRemoveReference)] else [];
    var c2 := if b.client.Some? && r.clientRefProxy then [RemoveReference(MasterClientRef(b.client.value), r.clientRemoveReference)] else [];
    Step(b.(tracking := false, master := false, client := None, provider := None, position := None), c1 + c2)
  }

  /** stop_tracking: unsubscribe only when tracking, then always tear down. */
  function StopTracking(b: Backend, r: StopReplies): (s: Step)
    ensures Idle(s.state)
    ensures Wf(b) ==> Wf(s.state)
    ensures s.state.connected == b.connected && s.state.nextSubscription == b.nextSubscription
    ensures s.state.lastVelocity == b.lastVelocity
    ensures b.tracking ==> Unsubscribed(s.state)
    ensures !b.tracking ==> (s.state.providerSubscription == b.providerSubscription
                             && s.state.positionSubscription == b.positionSubscription
                             && s.state.velocitySubscription == b.velocitySubscription)
    ensures (exists c :: c in s.calls && c.Unsubscribe?) ==> b.tracking
    ensures forall c :: c in s.calls ==> c.Unsubscribe? || c.RemoveReference?
  {
    if b.tracking then
      var u := UnsubscribeSignals(b);
      var d := DestroyMasterClient(u.state.(tracking := false), r);
      Step(d.state, u.calls + d.calls)
    else DestroyMasterClient(b, r)
  }

  /** on_position_provider_changed: an empty service or path is ignored.
      Otherwise the position proxy is dropped, the old provider gets
      RemoveReference, and the new provider gets a proxy, AddReference, a
      Position proxy and fresh position/velocity subscriptions. The previous
      subscription ids are overwritten, never unsubscribed. */
  function OnPositionProviderChanged(b: Backend, service: string, path: string, r: ProviderReplies): (s: Step)
    ensures service == "" || path == "" ==> s == Step(b, [])
    ensures Wf(b) ==> Wf(s.state)
    ensures forall c :: c in s.calls ==> !c.Unsubscribe?
    ensures s.state.tracking == b.tracking && s.state.master == b.master && s.state.client == b.client
    ensures s.state.lastVelocity == b.lastVelocity
    ensures s.state.providerSubscription == b.providerSubscription
  {
    if service == "" || path == "" then Step(b, [])
    else
      var p := ProviderId(service, path);
      var c1 := if b.provider.Some? then [RemoveReference(ProviderRef(b.provider.value), r.oldRemoveReference)] else [];
      var b1 := b.(position := None, provider := None);
      if !r.providerProxy then Step(b1, c1)
      else
        var b2 := b1.(provider := Some(p));
        var c2 := c1 + [AddReference(ProviderRef(p), r.addReference)];
        if !r.positionProxy then Step(b2, c2)
        else
          var pid := b2.nextSubscription;
          var vid := pid + 1;
          Step(b2.(position := Some(p), positionSubscription := pid, velocitySubscription := vid, nextSubscription := vid + 1),
               c2 + [Subscribe(pid, PositionChangedSignal(p)), Subscribe(vid, VelocityChangedSignal(p))])
  }

  /** on_velocity_changed, with the daemon's boolean freshness marker. */
  function OnVelocityChanged(b: Backend, v: FixMerger.VelocitySample): (r: (Backend, FixMerger.Velocity))
    ensures r.0 == b.(lastVelocity := r.0.lastVelocity)
    ensures r.0.lastVelocity.freshness == 1 && FixMerger.Sanitized(r.0.lastVelocity)
    ensures Wf(b) ==> Wf(r.0)
  {
    var (lv, raw) := FixMerger.OnVelocity(b.lastVelocity, v, FixMerger.AsWritten);
    (b.(lastVelocity := lv), raw)
  }

  /** on_position_changed, with the daemon's boolean freshness marker. */
  function OnPositionChanged(b: Backend, s: FixMerger.PositionSample): (r: (Backend, FixMerger.Position))
    ensures r.0 == b.(lastVelocity := r.0.lastVelocity)
    ensures Wf(b) ==> Wf(r.0)
    ensures FixMerger.FromSample(r.1, s)
    ensures b.lastVelocity.freshness > 0 ==> FixMerger.CarriesVelocity(r.1, b.lastVelocity)
    ensures b.lastVelocity.freshness == 0 ==> FixMerger.VelocityUnknown(r.1)
    ensures b.lastVelocity.freshness <= 1 ==> r.0.lastVelocity.freshness == 0
  {
    var (p, lv) := FixMerger.OnPosition(b.lastVelocity, s, FixMerger.AsWritten);
    (b.(lastVelocity := lv), p)
  }

  /** Everything that can happen to the backend. */
  datatype Event =
    | StartEvent(startReplies: StartReplies)
    | StopEvent(stopReplies: StopReplies)
    | ProviderChangedEvent(service: string, path: string, providerReplies: ProviderReplies)
    | PositionEvent(position: FixMerger.PositionSample)
    | VelocityEvent(velocity: FixMerger.VelocitySample)

  /** One event, with the calls it makes. */
  function Apply(b: Backend, e: Event): Step {
    match e
    case StartEvent(r) => StartTracking(b, r)
    case StopEvent(r) => StopTracking(b, r)
    case ProviderChangedEvent(service, path, r) => OnPositionProviderChanged(b, service, path, r)
    case PositionEvent(s) => Step(OnPositionChanged(b, s).0, [])
    case VelocityEvent(v) => Step(OnVelocityChanged(b, v).0, [])
  }

  /** A run of events, with every call made along the way. */
  function Run(b: Backend, events: seq<Event>): Step
    decreases |events|
  {
    if |events| == 0 then Step(b, [])
    else
      var s := Apply(b, events[0]);
      var rest := Run(s.state, events[1..]);
      Step(rest.state, s.calls + rest.calls)
  }

  // ---------------------------------------------------------------------
  // Start

  /** Starting while tracking changes nothing and calls nothing, so a second
      start after a successful one is a no-op. */
  lemma StartIdempotent(b: Backend, r1: StartReplies, r2: StartReplies)
    requires StartTracking(b, r1).state.tracking
    ensures StartTracking(StartTracking(b, r1).state, r2) == StartTracking(b, r1).(calls := [])
  {
  }

  /** From a fresh backend with every reply successful, tracking starts and
      the calls are exactly Create, the PositionProviderChanged subscription,
      AddReference on the new client, SetRequirements and PositionStart. */
  lemma FirstStartCalls(clientPath: string)
    requires clientPath != ""
    ensures var s := StartTracking(Init(true), AllSucceed(clientPath));
      && s.state.tracking && s.state.client == Some(clientPath)
      && s.calls == SetupCalls(1, clientPath)
  {
  }

  /** Without a session-bus connection starting does nothing at all. */
  lemma StartWithoutConnection(b: Backend, r: StartReplies)
    requires !b.connected && !b.tracking && !(b.master && b.client.Some?)
    ensures StartTracking(b, r) == Step(b, [])
  {
  }

  /** The retry short-circuit: when SetRequirements or PositionStart fails,
      tracking does not start but both master and client proxies stay set, so
      the next start succeeds at once without reissuing either call. */
  lemma RetryAfterLateFailure(b: Backend, r1: StartReplies, r2: StartReplies)
    requires !b.tracking
    requires var s := StartTracking(b, r1);
      !s.state.tracking && SetRequirements(RequiredAccuracy, RequiredTime, true, AllResources) in s.calls
    ensures var s1 := StartTracking(b, r1).state;
      s1.master && s1.client.Some? && StartTracking(s1, r2) == Step(s1.(tracking := true), [])
  {
  }

  /** A failure before the MasterClient proxy exists leaves no client proxy,
      so the next start calls Master.Create again; when the earlier attempt
      had already subscribed to PositionProviderChanged, that subscription id
      is overwritten without being dropped. */
  lemma RetryAfterClientProxyFailure(b: Backend, r1: StartReplies, r2: StartReplies)
    requires Wf(b) && !b.tracking && b.connected && b.client.None?
    requires r1.masterProxy && r1.create.Created? && r1.create.clientPath != "" && !r1.clientProxy
    requires r2.create.Created? && r2.create.clientPath != ""
    ensures var s1 := StartTracking(b, r1);
      var s2 := StartTracking(s1.state, r2);
      && !s1.state.tracking && s1.state.master && s1.state.providerSubscription != 0
      && s2.calls[0] == MasterCreate
      && s2.state.providerSubscription != s1.state.providerSubscription
      && Unsubscribe(s1.state.providerSubscription) !in s2.calls
  {
  }

  // ---------------------------------------------------------------------
  // Stop

  /** The teardown is best-effort: whether the provider's RemoveReference
      succeeds makes no difference to the rest. The MasterClient still gets
      its RemoveReference, after the provider's, and every slot is released. */
  lemma TeardownBestEffort(b: Backend, r: StopReplies)
    requires b.provider.Some? && b.client.Some? && r.clientRefProxy
    ensures var s := StopTracking(b, r);
      var ds := DestroyMasterClient(b, r).calls;
      && Idle(s.state)
      && ds == [RemoveReference(ProviderRef(b.provider.value), r.providerRemoveReference),
                RemoveReference(MasterClientRef(b.client.value), r.clientRemoveReference)]
      && s.calls[|s.calls| - 2..] == ds
      && StopTracking(b, r.(providerRemoveReference := !r.providerRemoveReference)).state == s.state
  {
    var s := StopTracking(b, r);
    if b.tracking {
      var u := UnsubscribeSignals(b);
      assert s.calls == u.calls + DestroyMasterClient(u.state.(tracking := false), r).calls;
    }
  }

  /** Stopping twice in a row: the second stop finds nothing to release and
      makes no call, whatever the replies. */
  lemma StopTwiceIsQuiet(b: Backend, r1: StopReplies, r2: StopReplies)
    ensures var s1 := StopTracking(b, r1).state;
      StopTracking(s1, r2) == Step(s1, [])
  {
  }

  /** Stopping a backend that never started tracking after a failed start
      drops no subscription: the PositionProviderChanged subscription made by
      the failed attempt stays in place. */
  lemma FailedStartSubscriptionSurvivesStop(b: Backend, r1: StartReplies, r2: StopReplies)
    requires Wf(b) && !b.tracking && b.connected && !b.master && b.client.None?
    requires r1.masterProxy && r1.create.Created? && r1.create.clientPath != "" && !r1.setRequirements
    ensures var s1 := StartTracking(b, r1).state;
      var s2 := StopTracking(s1, r2);
      && s1.providerSubscription != 0
      && s2.state.providerSubscription == s1.providerSubscription
      && forall c :: c in s2.calls ==> !c.Unsubscribe?
  {
  }

  /** After a start that failed at SetRequirements and a stop, the
      PositionProviderChanged subscription is still live, so a provider
      announcement takes a reference on the new provider although nothing
      is tracking and no master client is held. */
  lemma ProviderAfterFailedStartAndStop(b: Backend, r1: StartReplies, r2: StopReplies,
                                        service: string, path: string, r3: ProviderReplies)
    requires Wf(b) && !b.tracking && b.connected && !b.master && b.client.None?
    requires r1.masterProxy && r1.create.Created? && r1.create.clientPath != "" && !r1.setRequirements
    requires service != "" && path != "" && r3.providerProxy
    ensures var s2 := StopTracking(StartTracking(b, r1).state, r2).state;
      var s3 := OnPositionProviderChanged(s2, service, path, r3);
      && s2.providerSubscription != 0 && Idle(s2)
      && AddReference(ProviderRef(ProviderId(service, path)), r3.addReference) in s3.calls
      && s3.state.provider == Some(ProviderId(service, path))
      && !s3.state.tracking && !s3.state.master
  {
    FailedStartSubscriptionSurvivesStop(b, r1, r2);
  }

  // ---------------------------------------------------------------------
  // Provider replacement

  /** Replacing a provider releases the old one before reserving the new one,
      and leaves the old signal subscriptions in place: the new ids overwrite
      them and nothing is unsubscribed. */
  lemma ProviderReplacement(b: Backend, service: string, path: string, r: ProviderReplies)
    requires Wf(b)
    requires service != "" && path != "" && b.provider.Some? && r.providerProxy && r.positionProxy
    ensures var s := OnPositionProviderChanged(b, service, path, r);
      var p := ProviderId(service, path);
      && s.calls[0] == RemoveReference(ProviderRef(b.provider.value), r.oldRemoveReference)
      && s.calls[1] == AddReference(ProviderRef(p), r.addReference)
      && s.state.provider == Some(p) && s.state.position == Some(p)
      && s.state.positionSubscription != b.positionSubscription
      && s.state.velocitySubscription != b.velocitySubscription
      && Wf(s.state)
  {
  }

  // ---------------------------------------------------------------------
  // The code as written: a freed GError left in place

  /* Four tolerated failures free the local GError without resetting
     `error` to null: the client's Geoclue proxy or its AddReference in
     ensure_master_client, the provider's RemoveReference in
     destroy_master_client, and the new provider's AddReference in
     on_position_provider_changed. The next GLib call is then handed a
     non-null `*error`, which GLib's argument check refuses: the call returns
     failure without reaching the bus. The members above model the evident
     intent, a cleared error after which each step has its own reply; the
     members below model the refusal. What the subsequent read of the freed
     message and the second free do is undefined and not modelled. */

  /** Whether ensure_master_client frees an error it then carries on with:
      the client's Geoclue proxy cannot be made, or its AddReference fails. */
  predicate ClientReferenceFailed(r: StartReplies) {
    !r.clientRefProxy || !r.addReference
  }

  /** ensure_master_client as written: after a tolerated failure of the
      client's reference step, SetRequirements is refused before it is sent
      and the set-up fails. */
  function EnsureMasterClientAsWritten(b: Backend, r: StartReplies): (e: Ensured)
    ensures !ClientReferenceFailed(r) ==> e == EnsureMasterClient(b, r)
    ensures e.state == EnsureMasterClient(b, r).state
    ensures ClientReferenceFailed(r) && !(b.master && b.client.Some?) ==>
      && !e.ok
      && SetRequirements(RequiredAccuracy, RequiredTime, true, AllResources) !in e.calls
      && PositionStart !in e.calls
  {
    if b.master && b.client.Some? then Ensured(true, b, [])
    else if !b.connected then Ensured(false, b, [])
    else if !b.master && !r.masterProxy then Ensured(false, b, [])
    else
      var b1 := b.(master := true);
      match r.create
      case CreateFailed => Ensured(false, b1, [MasterCreate])
      case Created(path) =>
        if path == "" then Ensured(false, b1, [MasterCreate])
        else
          var id := b1.nextSubscription;
          var b2 := b1.(providerSubscription := id, nextSubscription := id + 1);
          var c2 := [MasterCreate, Subscribe(id, ProviderChangedSignal(path))];
          if !r.clientProxy then Ensured(false, b2, c2)
          else
            var b3 := b2.(client := Some(path));
            var c3 := c2 + (if r.clientRefProxy then [AddReference(MasterClientRef(path), r.addReference)] else []);
            if ClientReferenceFailed(r) then Ensured(false, b3, c3)
            else
              var c4 := c3 + [SetRequirements(RequiredAccuracy, RequiredTime, true, AllResources)];
              if !r.setRequirements then Ensured(false, b3, c4)
              else Ensured(r.positionStart, b3, c4 + [PositionStart])
  }

  /** destroy_master_client as written: after a failed provider
      RemoveReference the MasterClient's Geoclue proxy is refused, so the
      MasterClient gets no RemoveReference. Every slot is still released. */
  function DestroyMasterClientAsWritten(b: Backend, r: StopReplies): (s: Step)
    ensures s.state == DestroyMasterClient(b, r).state
    ensures b.provider.None? || r.providerRemoveReference ==> s == DestroyMasterClient(b, r)
    ensures b.provider.Some? && !r.providerRemoveReference ==>
      s.calls == [RemoveReference(ProviderRef(b.provider.value), false)]
  {
    var c1 := if b.provider.Some? then [RemoveReference(ProviderRef(b.provider.value), r.providerRemoveReference)] else [];
    var errorLeft := b.provider.Some? && !r.providerRemoveReference;
    var c2 := if b.client.Some? && r.clientRefProxy && !errorLeft then [RemoveReference(MasterClientRef(b.client.value), r.clientRemoveReference)] else [];
    Step(b.(tracking := false, master := false, client := None, provider := None, position := None), c1 + c2)
  }

  /** on_position_provider_changed as written: after a failed AddReference on
      the new provider its Position proxy is refused, so the handler returns
      holding the provider with no Position proxy and no subscriptions. */
  function OnPositionProviderChangedAsWritten(b: Backend, service: string, path: string, r: ProviderReplies): (s: Step)
    ensures r.addReference ==> s == OnPositionProviderChanged(b, service, path, r)
    ensures s.calls == OnPositionProviderChanged(b, service, path, r.(positionProxy := r.positionProxy && r.addReference)).calls
    ensures service != "" && path != "" && !r.addReference ==>
      s.state.position.None? && forall c :: c in s.calls ==> !c.Subscribe?
  {
    if service == "" || path == "" then Step(b, [])
    else
      var p := ProviderId(service, path);
      var c1 := if b.provider.Some? then [RemoveReference(ProviderRef(b.provider.value), r.oldRemoveReference)] else [];
      var b1 := b.(position := None, provider := None);
      if !r.providerProxy then Step(b1, c1)
      else
        var b2 := b1.(provider := Some(p));
        var c2 := c1 + [AddReference(ProviderRef(p), r.addReference)];
        if !r.positionProxy || !r.addReference then Step(b2, c2)
        else
          var pid := b2.nextSubscription;
          var vid := pid + 1;
          Step(b2.(position := Some(p), positionSubscription := pid, velocitySubscription := vid, nextSubscription := vid + 1),
               c2 + [Subscribe(pid, PositionChangedSignal(p)), Subscribe(vid, VelocityChangedSignal(p))])
  }

  /** Intended: the client's reference step is best-effort, so its outcome
      changes neither whether the set-up succeeds nor the state it leaves. */
  lemma ClientReferenceFailureTolerated(b: Backend, r: StartReplies)
    ensures var e := EnsureMasterClient(b, r);
      var good := EnsureMasterClient(b, r.(clientRefProxy := true, addReference := true));
      e.ok == good.ok && e.state == good.state
  {
  }

  /** As written: a fresh backend whose every reply succeeds except the
      client's AddReference does not start, although the intended set-up
      does. */
  lemma AsWrittenClientReferenceFailureStopsStart(clientPath: string)
    requires clientPath != ""
    ensures var r := AllSucceed(clientPath).(addReference := false);
      && !EnsureMasterClientAsWritten(Init(true), r).ok
      && EnsureMasterClientAsWritten(Init(true), r).calls
           == [MasterCreate, Subscribe(1, ProviderChangedSignal(clientPath)), AddReference(MasterClientRef(clientPath), false)]
      && EnsureMasterClient(Init(true), r).ok
  {
  }

  /** As written: a failed provider RemoveReference costs the MasterClient
      its RemoveReference, which the intended teardown still sends. */
  lemma AsWrittenTeardownSkipsClientRelease(b: Backend, r: StopReplies)
    requires b.provider.Some? && b.client.Some? && r.clientRefProxy && !r.providerRemoveReference
    ensures var release := RemoveReference(MasterClientRef(b.client.value), r.clientRemoveReference);
      && release !in DestroyMasterClientAsWritten(b, r).calls
      && release in DestroyMasterClient(b, r).calls
  {
  }

  /** Intended: the new provider's AddReference is best-effort, so its
      outcome changes nothing in the state the handler leaves. */
  lemma ProviderReferenceFailureTolerated(b: Backend, service: string, path: string, r: ProviderReplies)
    ensures OnPositionProviderChanged(b, service, path, r).state
         == OnPositionProviderChanged(b, service, path, r.(addReference := true)).state
  {
  }

  /** As written: a failed AddReference on the new provider leaves it without
      a Position proxy or subscriptions, so no fix arrives from it; the
      intended handler subscribes to both its signals. */
  lemma AsWrittenProviderReferenceFailureDropsPosition(b: Backend, service: string, path: string, r: ProviderReplies)
    requires service != "" && path != "" && r.providerProxy && r.positionProxy && !r.addReference
    ensures var p := ProviderId(service, path);
      && OnPositionProviderChangedAsWritten(b, service, path, r).state.position.None?
      && OnPositionProviderChanged(b, service, path, r).state.position == Some(p)
      && Subscribe(b.nextSubscription, PositionChangedSignal(p)) in OnPositionProviderChanged(b, service, path, r).calls
  {
  }

  // ---------------------------------------------------------------------
  // Invariants over runs

  /** Every event keeps the state well formed. */
  lemma ApplyPreservesWf(b: Backend, e: Event)
    requires Wf(b)
    ensures Wf(Apply(b, e).state)
  {
    match e
    case StartEvent(r) =>
    case StopEvent(r) =>
    case ProviderChangedEvent(service, path, r) =>
    case PositionEvent(s) =>
      var lv := b.lastVelocity;
      var lv' := OnPositionChanged(b, s).0.lastVelocity;
      assert lv'.speed == lv.speed && lv'.direction == lv.direction && lv'.climb == lv.climb;
    case VelocityEvent(v) =>
  }

  /** The net number of references a run's calls take on `t`: AddReference
      calls minus RemoveReference calls, successful or not. */
  function Balance(calls: seq<Call>, t: RefTarget): int
    decreases |calls|
  {
    if |calls| == 0 then 0
    else
      var d := match calls[0]
        case AddReference(t', _) => if t' == t then 1 else 0
        case RemoveReference(t', _) => if t' == t then -1 else 0
        case _ => 0;
      d + Balance(calls[1..], t)
  }

  lemma {:induction false} BalanceAppend(a: seq<Call>, c: seq<Call>, t: RefTarget)
    ensures Balance(a + c, t) == Balance(a, t) + Balance(c, t)
    decreases |a|
  {
    if |a| > 0 {
      assert (a + c)[1..] == a[1..] + c;
      BalanceAppend(a[1..], c, t);
    } else {
      assert a + c == c;
    }
  }

  /** Each provider holds exactly the references the daemon believes it holds:
      one while it is the current provider, none otherwise. */
  ghost predicate ProviderBalanced(b: Backend, calls: seq<Call>) {
    forall p :: Balance(calls, ProviderRef(p)) == if b.provider == Some(p) then 1 else 0
  }

  /** The net provider references of one event's calls. */
  lemma ApplyProviderBalance(b: Backend, e: Event, p: ProviderId)
    ensures var s := Apply(b, e);
      Balance(s.calls, ProviderRef(p))
        == (if s.state.provider == Some(p) then 1 else 0) - (if b.provider == Some(p) then 1 else 0)
  {
    var t := ProviderRef(p);
    match e
    case StartEvent(r) =>
      var s := StartTracking(b, r);
      BalanceNoProviderCalls(s.calls, p);
    case StopEvent(r) =>
      var s := StopTracking(b, r);
      if b.tracking {
        var u := UnsubscribeSignals(b);
        var d := DestroyMasterClient(u.state.(tracking := false), r);
        BalanceAppend(u.calls, d.calls, t);
        BalanceNoProviderCalls(u.calls, p);
        DestroyBalance(u.state.(tracking := false), r, p);
      } else {
        DestroyBalance(b, r, p);
      }
    case ProviderChangedEvent(service, path, r) =>
      ProviderChangedBalance(b, service, path, r, p);
    case PositionEvent(s) =>
    case VelocityEvent(v) =>
  }

  lemma {:induction false} BalanceNoProviderCalls(calls: seq<Call>, p: ProviderId)
    requires forall c :: c in calls ==> !c.RemoveReference? && !(c.AddReference? && c.target.ProviderRef?)
    ensures Balance(calls, ProviderRef(p)) == 0
    decreases |calls|
  {
    if |calls| > 0 {
      assert calls[0] in calls;
      forall c | c in calls[1..] ensures c in calls { }
      BalanceNoProviderCalls(calls[1..], p);
    }
  }

  lemma DestroyBalance(b: Backend, r: StopReplies, p: ProviderId)
    ensures Balance(DestroyMasterClient(b, r).calls, ProviderRef(p)) == if b.provider == Some(p) then -1 else 0
  {
    var t := ProviderRef(p);
    var c1 := if b.provider.Some? then [RemoveReference(ProviderRef(b.provider.value), r.providerRemoveReference)] else [];
    var c2 := if b.client.Some? && r.clientRefProxy then [RemoveReference(MasterClientRef(b.client.value), r.clientRemoveReference)] else [];
    BalanceAppend(c1, c2, t);
    assert c1 == [] || c1[1..] == [];
    assert c2 == [] || c2[1..] == [];
  }

  lemma ProviderChangedBalance(b: Backend, service: string, path: string, r: ProviderReplies, p: ProviderId)
    ensures var s := OnPositionProviderChanged(b, service, path, r);
      Balance(s.calls, ProviderRef(p))
        == (if s.state.provider == Some(p) then 1 else 0) - (if b.provider == Some(p) then 1 else 0)
  {
    if service != "" && path != "" {
      var t := ProviderRef(p);
      var q := ProviderId(service, path);
      var c1 := if b.provider.Some? then [RemoveReference(ProviderRef(b.provider.value), r.oldRemoveReference)] else [];
      assert c1 == [] || c1[1..] == [];
      if r.providerProxy {
        var c2 := c1 + [AddReference(ProviderRef(q), r.addReference)];
        var add: seq<Call> := [AddReference(ProviderRef(q), r.addReference)];
        assert add[1..] == [];
        BalanceAppend(c1, add, t);
        if r.positionProxy {
          var subs: seq<Call> := [Subscribe(b.nextSubscription, PositionChangedSignal(q)),
                                  Subscribe(b.nextSubscription + 1, VelocityChangedSignal(q))];
          assert subs[1..][1..] == [];
          BalanceAppend(c2, subs, t);
        }
      }
    }
  }

  /** One event keeps the reference balance of every provider. */
  lemma ApplyKeepsProviderReferencesBalanced(b: Backend, e: Event, prior: seq<Call>)
    requires ProviderBalanced(b, prior)
    ensures ProviderBalanced(Apply(b, e).state, prior + Apply(b, e).calls)
  {
    var s := Apply(b, e);
    forall p ensures Balance(prior + s.calls, ProviderRef(p)) == if s.state.provider == Some(p) then 1 else 0 {
      BalanceAppend(prior, s.calls, ProviderRef(p));
      ApplyProviderBalance(b, e, p);
    }
  }

  /** Reference balance over any run from a freshly constructed backend:
      across any number of provider replacements, stops and restarts, every
      provider has received exactly one more AddReference than
      RemoveReference while it is the current provider, and equally many
      otherwise. */
  lemma {:induction false} RunKeepsProviderReferencesBalanced(b: Backend, events: seq<Event>, prior: seq<Call>)
    requires ProviderBalanced(b, prior)
    ensures ProviderBalanced(Run(b, events).state, prior + Run(b, events).calls)
    decreases |events|
  {
    if |events| == 0 {
      assert prior + [] == prior;
    } else {
      var s := Apply(b, events[0]);
      ApplyKeepsProviderReferencesBalanced(b, events[0], prior);
      RunKeepsProviderReferencesBalanced(s.state, events[1..], prior + s.calls);
      var rest := Run(s.state, events[1..]);
      assert prior + s.calls + rest.calls == prior + (s.calls + rest.calls);
    }
  }

  /** The same, stated from a freshly constructed backend with no call yet. */
  lemma ProviderReferencesBalancedFromInit(connected: bool, events: seq<Event>)
    ensures ProviderBalanced(Run(Init(connected), events).state, Run(Init(connected), events).calls)
  {
    RunKeepsProviderReferencesBalanced(Init(connected), events, []);
    assert [] + Run(Init(connected), events).calls == Run(Init(connected), events).calls;
  }

  /** Every run from a well-formed state stays well formed. */
  lemma {:induction false} RunPreservesWf(b: Backend, events: seq<Event>)
    requires Wf(b)
    ensures Wf(Run(b, events).state)
    decreases |events|
  {
    if |events| > 0 {
      ApplyPreservesWf(b, events[0]);
      RunPreservesWf(Apply(b, events[0]).state, events[1..]);
    }
  }
}
