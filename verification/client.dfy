/** One org.freedesktop.GeoClue2.Client session (geoclue2_client.h,
    geoclue2_client.cpp): its activation flag, its Location property and its
    single active-changed callback slot. */
module Client {
  import opened Values

  /** The Location property of a client that has not received a fix yet. */
  const NoLocation: string := "/"

  /** Names the function stored in the active-changed callback slot. */
  type CallbackId = nat

  datatype Client = Client(
    path: string,
    active: bool,
    desktopId: string,
    requestedAccuracyLevel: nat,
    distanceThreshold: nat,
    timeThreshold: nat,
    location: string,
    callback: Option<CallbackId>)

  /** One invocation of the active-changed callback with the new flag. */
  datatype Notice = Notice(callback: CallbackId, active: bool)

  /** The LocationUpdated(old, new) signal. */
  datatype LocationUpdated = LocationUpdated(previous: string, current: string)

  /** A freshly constructed client: inactive, no location, empty metadata and
      no callback. */
  function New(path: string): (c: Client)
    ensures c.path == path && !c.active && c.location == NoLocation
    ensures c.desktopId == "" && c.requestedAccuracyLevel == 0
    ensures c.distanceThreshold == 0 && c.timeThreshold == 0
    ensures c.callback == None
  {
    Client(path, false, "", 0, 0, 0, NoLocation, None)
  }

  /** is_active: whether Start would complete at once, and Stop would not. */
  function IsActive(c: Client): (r: bool)
    ensures r <==> Start(c) == (c, None)
    ensures !r <==> Stop(c) == (c, None)
  {
    c.active
  }

  /** set_active_changed_callback: the slot holds one callback, the last one
      set. */
  function SetActiveChangedCallback(c: Client, cb: CallbackId): (r: Client)
    ensures r.callback == Some(cb)
    ensures r == c.(callback := r.callback)
  {
    c.(callback := Some(cb))
  }

  /** Everything of a client but its activation flag. */
  predicate SameButActive(c: Client, d: Client) {
    c.(active := d.active) == d
  }

  /** set_active: a real transition flips the flag and invokes the callback, if
      one is set, once with the new value; asking for the current value does
      nothing. */
  function SetActive(c: Client, active: bool): (r: (Client, Option<Notice>))
    ensures r.0.active == active && SameButActive(c, r.0)
    ensures c.active == active ==> r == (c, None)
    ensures c.active != active ==>
      r.1 == (if c.callback.Some? then Some(Notice(c.callback.value, active)) else None)
  {
    if c.active == active then (c, None)
    else
      var c' := c.(active := active);
      (c', if c.callback.Some? then Some(Notice(c.callback.value, active)) else None)
  }

  /** on_handle_start: an already active client completes at once; otherwise
      it becomes active. Either way the call succeeds. */
  function Start(c: Client): (r: (Client, Option<Notice>))
    ensures r.0.active && SameButActive(c, r.0)
    ensures c.active ==> r == (c, None)
    ensures !c.active && c.callback.Some? ==> r.1 == Some(Notice(c.callback.value, true))
    ensures c.callback.None? ==> r.1 == None
  {
    if c.active then (c, None) else SetActive(c, true)
  }

  /** on_handle_stop: the mirror image of Start. */
  function Stop(c: Client): (r: (Client, Option<Notice>))
    ensures !r.0.active && SameButActive(c, r.0)
    ensures !c.active ==> r == (c, None)
    ensures c.active && c.callback.Some? ==> r.1 == Some(Notice(c.callback.value, false))
    ensures c.callback.None? ==> r.1 == None
  {
    if !c.active then (c, None) else SetActive(c, false)
  }

  /** The destructor: a client destroyed while active first performs the
      deactivation transition. Returns the callback invocation it causes. */
  function Destroy(c: Client): (n: Option<Notice>)
    ensures !c.active ==> n == None
    ensures c.active && c.callback.Some? ==> n == Some(Notice(c.callback.value, false))
    ensures c.callback.None? ==> n == None
  {
    if c.active then SetActive(c, false).1 else None
  }

  /** notify_location_update: an active client moves its Location property to
      the new path and emits LocationUpdated(previous, new); an inactive one
      ignores the update. */
  function NotifyLocationUpdate(c: Client, newPath: string): (r: (Client, Option<LocationUpdated>))
    ensures c.active ==> r.0 == c.(location := newPath) && r.1 == Some(LocationUpdated(c.location, newPath))
    ensures !c.active ==> r == (c, None)
  {
    if !c.active then (c, None)
    else (c.(location := newPath), Some(LocationUpdated(c.location, newPath)))
  }

  /** Start and Stop are idempotent, and neither touches the Location
      property: Start;Start is Start, Stop;Stop is Stop, and a client that is
      started and stopped again is the client it was, with two callback
      invocations in between. */
  lemma StartStopLaws(c: Client)
    ensures Start(Start(c).0) == (Start(c).0, None)
    ensures Stop(Stop(c).0) == (Stop(c).0, None)
    ensures Start(c).0.location == c.location && Stop(c).0.location == c.location
    ensures !c.active && c.callback.Some? ==>
      var (started, n1) := Start(c);
      var (stopped, n2) := Stop(started);
      stopped == c && n1 == Some(Notice(c.callback.value, true)) && n2 == Some(Notice(c.callback.value, false))
  {
  }

  /** A new client ignores fixes until it is started; afterwards it takes each
      one, reporting the previous Location, "/" for the first. */
  lemma FirstUpdateAfterStart(path: string, cb: CallbackId, loc1: string, loc2: string)
    ensures var c := SetActiveChangedCallback(New(path), cb);
      && NotifyLocationUpdate(c, loc1) == (c, None)
      && var (started, _) := Start(c);
         var (c1, u1) := NotifyLocationUpdate(started, loc1);
         var (c2, u2) := NotifyLocationUpdate(c1, loc2);
         && u1 == Some(LocationUpdated(NoLocation, loc1))
         && u2 == Some(LocationUpdated(loc1, loc2))
         && c2.location == loc2
  {
  }

  /** Setting a second callback replaces the first: transitions reach only
      the one set last. */
  lemma CallbackReplaced(c: Client, first: CallbackId, second: CallbackId)
    requires !c.active
    ensures Start(SetActiveChangedCallback(SetActiveChangedCallback(c, first), second)).1
            == Some(Notice(second, true))
  {
  }
}
