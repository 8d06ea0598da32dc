# geoclue2to1 in Dafny

A model of the session and lifecycle engine of geoclue2to1, a daemon that
serves the org.freedesktop.GeoClue2 D-Bus interface on top of a legacy
GeoClue1 service. The model covers four parts:

- **The fix merger** (`fix_merger.dfy`): velocity samples from the legacy
  `VelocityChanged` signal are sanitised and stored. They are folded into the
  fixes built from `PositionChanged` samples while a freshness marker lasts.
- **The legacy backend** (`legacy_backend.dfy`): `Geoclue1Backend` as a state
  machine. It holds the tracking flag, the four proxy slots and the three
  signal-subscription ids. Every outward call (`Master.Create`,
  `SetRequirements`, `PositionStart`, `AddReference`, `RemoveReference`,
  subscribe, unsubscribe) is recorded in order. The success of each call or
  proxy construction is an input.
- **The manager and its clients** (`manager.dfy`, `client.dfy`): the client
  registry keyed by peer and by object path. It also covers:
  - the active-client counter, with the InUse property and the single grace
    timer;
  - the broadcast of each new location to the active clients;
  - the history of the newest 25 locations.
  Timer and backend requests come out as effects, and the timer firing is an
  explicit event.
- **Fix to location** (`location.dfy`, `decimal.dfy`): a merged fix becomes a
  GeoClue2 Location object. This includes the timestamp's trip through
  `std::to_string`, `std::stoll` and the `guint64` cast.

`daemon.dfy` wires these together as `main.cpp` does. The backend's merged
fixes feed the manager's `handle_position_update`. The manager's start and
stop requests are carried out on the backend.

Values shared by every part live in `values.dfy`:
- `Option`;
- doubles, where NaN is a tag and every other value is opaque;
- the 32-bit and 64-bit integer ranges;
- the `guint64` cast, taken modulo 2^64.

## Where the code and its stated intent differ

The model follows the code in each of these cases except the last. The last
is a defect, recorded under "## Findings".

- The freshness window is one fix, not two. `VELOCITY_FRESH_STEPS` is 2, but
  the marker it is stored in (`is_fresh`) is a `bool`. Storing 2 therefore
  yields `true`, and the first decrement yields `false`. The model
  reproduces this with a `BoolMarker` (`FixMerger.AsWrittenWindowIsOne`). It
  also proves that a counter would give the two-fix window
  (`FixMerger.IntendedWindowIsTwo`).
- A vanished peer loses only the one client the peer map holds for it. The
  peer map is keyed by peer name, so a client the peer's later
  `CreateClient` call displaced stays registered, and may stay active
  (`Manager.VanishedPeerLeavesOverwrittenClient`).
- The grace period is not configurable. `--grace-timeout` is parsed by
  `main.cpp` but never handed to the manager, so the period is always
  15000 ms.
- `stop_tracking` unsubscribes only when tracking was on. The
  PositionProviderChanged subscription made by a start attempt that failed
  later stays in place (`LegacyBackend.FailedStartSubscriptionSurvivesStop`).
- A failed start does not return the backend to idle. A late failure keeps
  the master and client proxies, so the next start succeeds without calling
  `SetRequirements` or `PositionStart` again
  (`LegacyBackend.RetryAfterLateFailure`). There is no automatic retry.
- A reference can be taken with nobody tracking. The subscription that
  survives a stop after a failed start still delivers
  PositionProviderChanged. The handler then sends AddReference to the
  announced provider while the backend is idle and no client is active
  (`LegacyBackend.ProviderAfterFailedStartAndStop`).
- A freed error is used again. Four tolerated failures free the local
  `GError` without resetting `error` to null:
  - the client's AddReference (`src/geoclue1_backend.cpp:287-288`);
  - the client's Geoclue proxy (`:297-298`);
  - the provider's RemoveReference in the teardown (`:362-363`);
  - the new provider's AddReference (`:503-504`).

  The next call given `&error` is then SetRequirements (`:309-311`), the
  MasterClient's Geoclue proxy (`:377-380`) or the Position proxy
  (`:511-513`). GLib refuses that call because `*error` is not null, and it
  fails without reaching the bus. Its error branch then reads the freed
  message and frees it a second time. The comments at `:289` and `:505` say
  the code carries on. `EnsureMasterClient`, `DestroyMasterClient` and
  `OnPositionProviderChanged` model that intent: each step after a
  tolerated failure has its own reply. The `…AsWritten` members model the
  refused call.

## Model

| member | source | states |
|---|---|---|
| Values.Sanitize | src/geoclue1_backend.cpp:179-181 | The stored value is never NaN: NaN becomes -1.0 ("unknown") and every other value is kept. |
| Values.ToUint64 | src/geoclue2_location.cpp:87 | The `(guint64)` cast is below 2^64, keeps values in range, and adds 2^64 to negative 64-bit values. |
| Decimal.NatToString | src/geoclue2_manager.cpp:138-139 | `std::to_string` of a natural is a non-empty run of digits, with no leading zero except for 0 itself. |
| Decimal.IntToString | src/geoclue1_backend.cpp:138 | `std::to_string` of an int starts with '-' exactly when the value is negative. |
| Decimal.ParseLongLong | src/geoclue2_location.cpp:66-77 | `std::stoll` yields a value only within the `long long` range, and only when the text holds a digit; otherwise it throws. |
| Decimal.NatToStringInjective | src/geoclue2_manager.cpp:138-139 | Distinct ids have distinct decimal spellings. |
| Decimal.ParseAfterToString | src/geoclue2_location.cpp:69 | `stoll` reads back what `to_string` wrote, even when followed by text that does not continue the number. |
| Decimal.ParseToString | src/geoclue2_location.cpp:69 | `stoll(to_string(i)) == i` for every 64-bit `i`. |
| Decimal.ParseWithoutDigits | src/geoclue2_location.cpp:68-71 | Text with no digit makes `stoll` throw, so the clock fallback is taken. |
| FixMerger.Store | src/geoclue1_backend.h:62 | A `bool` marker saturates: any nonzero number is stored as 1 and 0 as 0. A counter keeps the number. |
| FixMerger.Decrement | src/geoclue1_backend.cpp:145 | `is_fresh -= 1` strictly lowers the marker: to 0 from 1, and by one on a counter. |
| FixMerger.OnVelocity | src/geoclue1_backend.cpp:170-192 | Each stored field is the sample's field, or -1.0 if that field is NaN, and the marker becomes fresh. The callback receives the raw values, with the timestamp as decimal text that reads back as the sample's integer. |
| FixMerger.OnPosition | src/geoclue1_backend.cpp:132-152 | Coordinates and altitude are copied, accuracy is the horizontal accuracy, and the timestamp is the integer's decimal text. While fresh, the fix carries the stored speed/direction/climb and one step is used up. Otherwise all three are -1.0 and nothing changes. |
| FixMerger.FixTimestampReadsBack | src/geoclue1_backend.cpp:138 | The fix's timestamp text parses back to the signal's integer timestamp. |
| FixMerger.MergeAll | src/geoclue1_backend.cpp:132-152 | A run of position samples yields one fix per sample. |
| FixMerger.MergeAllDecay | src/geoclue1_backend.cpp:141-152 | With a counter marker: of the fixes after a stored velocity, the first `freshness` carry it and the rest carry none; the stored values never change; every fix takes its position fields from its own sample. |
| FixMerger.BoolMarkerActsAsCounter | src/geoclue1_backend.h:62 | On a marker of 0 or 1, the bool marker and a counter merge every run identically. |
| FixMerger.AsWrittenWindowIsOne | src/geoclue1_backend.cpp:141-182 | As written, a velocity sample reaches only the next fix; every later fix reports speed, heading and climb as unknown. |
| FixMerger.IntendedWindowIsTwo | src/geoclue1_backend.cpp:141-182 | With a counter marker, the next two fixes carry the velocity and the third and later ones do not. |
| FixMerger.MergeNeverYieldsNaN | src/geoclue1_backend.cpp:141-182 | Whatever the velocity samples hold, no fix of any sample stream has a NaN speed, heading or climb. |
| FixMerger.InitialLastVelocityIsStale | src/geoclue1_backend.h:16-66 | The stored velocity starts not fresh, with every field -1.0; a default fix has speed, heading and climb -1.0. |
| Location.TimestampOf | src/geoclue2_location.cpp:63-88 | Both halves of the `(tt)` Timestamp fit a `guint64`, and the microseconds are below one second. |
| Location.SetFromPosition | src/geoclue2_location.cpp:40-104 | Latitude, longitude, accuracy, altitude, speed and heading are copied from the fix and the description is empty. The object ends up exported, with its properties already set. This call exports it exactly when it was not exported before. |
| Location.NewLocation | src/geoclue2_location.cpp:12-24 | A new location has its path, no properties and is not exported: export waits for the first set_from_geoclue1_position. |
| Location.TimestampRoundTrip | src/geoclue2_location.cpp:66-87 | The signal's integer reaches the Timestamp unchanged with zero microseconds when non-negative, or modulo 2^64 when negative; the clock is never consulted. |
| Location.EmptyTimestampUsesClock | src/geoclue2_location.cpp:78-84 | A fix without a timestamp takes the clock's seconds and microseconds. |
| Location.ExportedAtMostOnce | src/geoclue2_location.cpp:92-96 | Setting a location twice exports it once; the second call only overwrites the properties. |
| Location.MergedFixLocation | src/geoclue2_location.cpp:46-88 | The location built from any merged fix has the signal's coordinates and horizontal accuracy, and its integer timestamp (modulo 2^64) with zero microseconds. |
| Client.New | src/geoclue2_client.h:55-60 | A new client is inactive, at Location "/", with empty metadata, zero thresholds and no callback. |
| Client.IsActive | src/geoclue2_client.h:39 | `is_active` is true exactly when Start would complete with no change, and false exactly when Stop would. |
| Client.SetActiveChangedCallback | src/geoclue2_client.h:45 | The callback slot holds the one callback set last; nothing else changes. |
| Client.SetActive | src/geoclue2_client.cpp:69-86 | Asking for the current value does nothing and invokes no callback. A real transition flips the flag and invokes the callback, if set, once with the new value. |
| Client.Start | src/geoclue2_client.cpp:107-132 | After Start the client is active and nothing else has changed. An already active client sees no transition. Otherwise the callback, if one is installed, is told `true`; with none installed nothing is reported. |
| Client.Stop | src/geoclue2_client.cpp:134-159 | The mirror image of Start: afterwards the client is inactive, with at most one transition reported as `false`, and none when no callback is installed. |
| Client.Destroy | src/geoclue2_client.cpp:50-54 | Destroying an active client reports the deactivation once through the installed callback; an inactive client, or one with no callback, reports nothing. |
| Client.NotifyLocationUpdate | src/geoclue2_client.cpp:88-105 | An active client moves its Location to the new path and emits (previous, new); an inactive one is untouched and silent. |
| Client.StartStopLaws | src/geoclue2_client.cpp:107-159 | Start and Stop are idempotent and never alter Location; start-then-stop restores the client after two callback invocations. |
| Client.FirstUpdateAfterStart | src/geoclue2_client.cpp:88-132 | A new client ignores fixes until started; then the first update reports "/" as previous and the next one reports the first path. |
| Client.CallbackReplaced | src/geoclue2_client.h:45 | After two callbacks are set, a transition reaches only the second. |
| LegacyBackend.Init | src/geoclue1_backend.h:58-95 | A new backend is not tracking, holds no proxy, has every subscription id at 0, and holds the stale stored velocity. |
| LegacyBackend.EnsureMasterClient | src/geoclue1_backend.cpp:195-340 | An existing master and client proxy succeed with no call. Success leaves both proxies set. The tracking flag, provider slots and stored velocity are untouched, and no reference is dropped. A failed client reference step is tolerated, as the code intends (see "## Findings"). |
| LegacyBackend.StartTracking | src/geoclue1_backend.cpp:45-61 | While tracking, nothing happens. Otherwise tracking is on exactly when `ensure_master_client` succeeds, with its calls. Well-formedness is kept. |
| LegacyBackend.UnsubscribeSignals | src/geoclue1_backend.cpp:89-106 | Every nonzero subscription id is unsubscribed and all three are zeroed; nothing else changes. |
| LegacyBackend.DestroyMasterClient | src/geoclue1_backend.cpp:342-424 | Afterwards every proxy slot is empty and tracking is off; nothing else changes. Each call has its own reply, as the code intends (see "## Findings"). |
| LegacyBackend.StopTracking | src/geoclue1_backend.cpp:63-80 | From any state the backend ends idle, with the stored velocity untouched. Subscriptions are dropped exactly when tracking was on, and only unsubscribe and RemoveReference calls are made. |
| LegacyBackend.OnPositionProviderChanged | src/geoclue1_backend.cpp:426-553 | An empty service or path changes nothing. The change never unsubscribes, and it leaves tracking, master and client, the provider-changed subscription and the stored velocity as they were. A failed AddReference is tolerated, as the code intends (see "## Findings"). |
| LegacyBackend.OnVelocityChanged | src/geoclue1_backend.cpp:159-193 | Only the stored velocity changes: it becomes fresh (1, the `bool` `true`) and NaN-free. |
| LegacyBackend.OnPositionChanged | src/geoclue1_backend.cpp:108-157 | Only the stored velocity's marker changes. The fix takes the sample's fields, and carries the stored velocity while fresh and -1.0 otherwise. One use leaves the marker stale. |
| LegacyBackend.StartIdempotent | src/geoclue1_backend.cpp:46-49 | A second start after a successful one changes nothing and calls nothing. |
| LegacyBackend.FirstStartCalls | src/geoclue1_backend.cpp:195-340 | From a fresh backend with every reply successful, the calls are Create, the PositionProviderChanged subscription, AddReference on the client, SetRequirements(0, 0, true, 1023) and PositionStart, in that order. |
| LegacyBackend.StartWithoutConnection | src/geoclue1_backend.cpp:195-201 | Without a session-bus connection, a start does nothing. |
| LegacyBackend.RetryAfterLateFailure | src/geoclue1_backend.cpp:195-340 | After SetRequirements or PositionStart fails, the proxies stay, and the next start succeeds at once with no call. |
| LegacyBackend.RetryAfterClientProxyFailure | src/geoclue1_backend.cpp:222-270 | A failure to build the MasterClient proxy makes the next start call Create again. The earlier PositionProviderChanged subscription id is then overwritten without being dropped. |
| LegacyBackend.TeardownBestEffort | src/geoclue1_backend.cpp:352-420 | In the teardown the code intends, whether the provider's RemoveReference succeeds changes nothing else: the MasterClient's RemoveReference still follows it, and every slot is released. The code as written drops that second call after a failure (`LegacyBackend.AsWrittenTeardownSkipsClientRelease`). |
| LegacyBackend.StopTwiceIsQuiet | src/geoclue1_backend.cpp:63-80 | A second stop makes no call and changes nothing. |
| LegacyBackend.FailedStartSubscriptionSurvivesStop | src/geoclue1_backend.cpp:63-80 | After a start that failed at SetRequirements, stop unsubscribes nothing: the provider-changed subscription survives. |
| LegacyBackend.ProviderAfterFailedStartAndStop | src/geoclue1_backend.cpp:247-254 | After a start that failed at SetRequirements and a stop, a PositionProviderChanged announcement still arrives and sends AddReference to the new provider, although nothing is tracking and no master client is held. |
| LegacyBackend.ProviderReplacement | src/geoclue1_backend.cpp:455-550 | The old provider gets RemoveReference before the new one gets AddReference. The new subscription ids replace the old ones, which are never unsubscribed. |
| LegacyBackend.EnsureMasterClientAsWritten | src/geoclue1_backend.cpp:195-340 | As written: once the client's Geoclue proxy or its AddReference has failed, SetRequirements and PositionStart are never sent and the set-up fails, leaving the state the intended set-up leaves. Without such a failure it is the intended set-up. |
| LegacyBackend.ClientReferenceFailureTolerated | src/geoclue1_backend.cpp:275-299 | Intended: the outcome of the client's reference step changes neither whether the set-up succeeds nor the state it leaves. |
| LegacyBackend.AsWrittenClientReferenceFailureStopsStart | src/geoclue1_backend.cpp:283-316 | As written, a fresh backend whose replies all succeed except the client's AddReference stops after that call and does not start. The intended set-up starts. |
| LegacyBackend.DestroyMasterClientAsWritten | src/geoclue1_backend.cpp:342-424 | As written: after a failed provider RemoveReference the MasterClient gets no RemoveReference, so the provider's is the only call. Every slot is released as intended, and without that failure it is the intended teardown. |
| LegacyBackend.AsWrittenTeardownSkipsClientRelease | src/geoclue1_backend.cpp:357-388 | As written, a failed provider RemoveReference costs the MasterClient its RemoveReference, which the intended teardown still sends. |
| LegacyBackend.OnPositionProviderChangedAsWritten | src/geoclue1_backend.cpp:426-553 | As written: after a failed AddReference on the new provider, no Position proxy is held and nothing is subscribed. Its calls are those of the intended handler with the Position proxy failing, and a successful AddReference gives the intended handler. |
| LegacyBackend.ProviderReferenceFailureTolerated | src/geoclue1_backend.cpp:494-508 | Intended: the outcome of the new provider's AddReference changes nothing in the state the handler leaves. |
| LegacyBackend.AsWrittenProviderReferenceFailureDropsPosition | src/geoclue1_backend.cpp:494-520 | As written, a failed AddReference leaves the new provider without a Position proxy. The intended handler holds one and subscribes to its PositionChanged signal. |
| LegacyBackend.ApplyPreservesWf | src/geoclue1_backend.cpp:45-553 | Every operation keeps the backend well formed: a client proxy implies a master proxy, tracking implies a client proxy, the position proxy is the provider's, and the stored velocity is NaN-free. |
| LegacyBackend.BalanceAppend | src/geoclue1_backend.cpp:355-357 | The net reference count of two call sequences is the sum of their counts. |
| LegacyBackend.ApplyProviderBalance | src/geoclue1_backend.cpp:45-553 | For each provider, an operation's AddReference calls minus its RemoveReference calls equal the change in whether that provider fills the current-provider slot. Calls are counted whether or not they succeed. |
| LegacyBackend.DestroyBalance | src/geoclue1_backend.cpp:342-424 | The teardown issues one RemoveReference call to the provider in the current-provider slot, and none to any other provider. |
| LegacyBackend.ProviderChangedBalance | src/geoclue1_backend.cpp:426-553 | For every combination of replies, a provider change's AddReference calls minus RemoveReference calls on a provider equal the change in whether it fills the current-provider slot. When the new provider's proxy cannot be made, only the old provider's RemoveReference is issued and the slot is left empty. |
| LegacyBackend.ApplyKeepsProviderReferencesBalanced | src/geoclue1_backend.cpp:45-553 | One operation keeps every provider's call balance: AddReference calls minus RemoveReference calls is 1 for the provider in the slot and 0 for every other. |
| LegacyBackend.RunKeepsProviderReferencesBalanced | src/geoclue1_backend.cpp:45-553 | Across any run, every provider has been sent one more AddReference call than RemoveReference calls while it fills the current-provider slot, and equally many otherwise. |
| LegacyBackend.ProviderReferencesBalancedFromInit | src/geoclue1_backend.cpp:45-553 | The same call balance holds for every run from a newly constructed backend. |
| LegacyBackend.RunPreservesWf | src/geoclue1_backend.cpp:45-553 | Every run from a well-formed backend stays well formed. |
| Manager.Init | src/geoclue2_manager.h:62-73 | A new manager has no backend, no clients, ids and count at 0, no timer pending and InUse false. |
| Manager.UpdateInUse | src/geoclue2_manager.cpp:233-238 | InUse becomes exactly "some client is active"; nothing else changes. |
| Manager.ClientBecameActive | src/geoclue2_manager.cpp:90-108 | A pending timer is cancelled, the count rises by one and InUse holds. The backend is started exactly when the count leaves 0 with a backend set. The registries and history are untouched. |
| Manager.ClientBecameInactive | src/geoclue2_manager.cpp:110-134 | At count 0 it only warns. Otherwise the count drops by one and InUse follows. Exactly when the last client goes, one 15000 ms timer is armed, replacing any pending one. The backend is never started or stopped here. |
| Manager.OnActiveChanged | src/geoclue2_manager.cpp:187-193 | No transition means no change. A transition never stops the backend: only the grace timer does. |
| Manager.GraceTimeout | src/geoclue2_manager.cpp:352-370 | Firing clears the timer slot, and stops the backend only when no client is active and a backend is set. |
| Manager.CreateClientForPeer | src/geoclue2_manager.cpp:169-207 | With reuse and a client held for the peer, that client comes back and nothing changes. Otherwise a new inactive client gets the path for the next id, enters both maps and overwrites the peer's entry. |
| Manager.DropPeerEntries | src/geoclue2_manager.cpp:220-226 | Exactly the peer entries that hold the removed client go. The code erases the first such entry and stops; the two agree because a valid manager's peer map is injective (`Manager.DropPeerEntriesErasesOne`). |
| Manager.DropPeerEntriesErasesOne | src/geoclue2_manager.cpp:221-226 | On an injective peer map, dropping the entries that hold a peer's client removes exactly that peer's entry, as the first-match-and-break loop does. |
| Manager.RemoveClient | src/geoclue2_manager.cpp:209-231 | An unknown path only warns. Otherwise the client leaves both maps, InUse is refreshed, and an active client is then deactivated once through its destructor. |
| Manager.PeerVanished | src/geoclue2_manager.cpp:329-350 | An unknown peer changes nothing. Otherwise the client the peer map holds leaves both maps, the peer's entry goes with it, every other client stays as it was, and an inactive client leaves the count unchanged while an active one lowers it by one. It never starts or stops the backend. A held path that is not registered only warns. |
| Manager.StartClient | src/geoclue2_client.cpp:107-132 | Start marks the client active. An inactive client's transition runs the manager's activation; an active one changes nothing. |
| Manager.StopClient | src/geoclue2_client.cpp:134-159 | Stop marks the client inactive. An active client's transition runs the manager's deactivation; an inactive one changes nothing. |
| Manager.TrimHistory | src/geoclue2_manager.cpp:161-166 | The pop_front loop leaves the newest min(25, n) locations in order. |
| Manager.Remember | src/geoclue2_manager.cpp:145-166 | After push_back and trimming, the new location is last, preceded by the newest earlier ones, min(25, n + 1) in all. |
| Manager.RememberIsTrimLoop | src/geoclue2_manager.cpp:145-166 | Remember is exactly push_back followed by the pop_front loop. |
| Manager.NotifyAll | src/geoclue2_manager.cpp:151-156 | Every registered client is offered the new path; none is added or removed, and the set of active clients is unchanged. |
| Manager.SignalsOf | src/geoclue2_manager.cpp:151-156 | One LocationUpdated per active client, from its previous Location to the new path, and none for an inactive client. |
| Manager.HandlePositionUpdate | src/geoclue2_manager.cpp:136-167 | The location id goes up by one. The newest kept location has the next path, is exported and carries the fix's coordinates, accuracy, altitude, speed and heading. It follows the newest earlier ones, min(25, n + 1) in all. Exactly the active clients are sent LocationUpdated(previous, new) and moved to the new path, the inactive ones are untouched, and nothing else changes. |
| Manager.SetBackend | src/geoclue2_manager.cpp:81-88 | Setting the backend only records it: nothing else changes, nothing is started even with clients active, and the invariant is kept. |
| Manager.Apply | src/geoclue2_manager.cpp:240-327 | AddAgent changes nothing. DeleteClient is remove_client. GetClient, CreateClient, a publication and set_backend make no backend or timer request, and creating a client leaves the active count unchanged. Only a Start request can start the backend, and only the grace timer can stop it. |
| Manager.ClientPathInjective | src/geoclue2_manager.cpp:181-182 | Distinct ids give distinct client paths. |
| Manager.LocationPathInjective | src/geoclue2_manager.cpp:138-139 | Distinct ids give distinct location paths. |
| Manager.InitValid | src/geoclue2_manager.h:62-73 | A new manager satisfies the invariant. |
| Manager.CreateClientValid | src/geoclue2_manager.cpp:169-207 | Creating or reusing a client keeps the invariant, and the returned path names a registered client. |
| Manager.StartClientValid | src/geoclue2_manager.cpp:90-108 | Start keeps the count equal to the number of active clients, and keeps InUse and the timer consistent with it. |
| Manager.StopClientValid | src/geoclue2_manager.cpp:110-134 | Stop keeps the same invariant, and a pending timer still implies no active client. |
| Manager.RemoveClientValid | src/geoclue2_manager.cpp:209-231 | Removal, with destructor deactivation, keeps the invariant. |
| Manager.PositionUpdateValid | src/geoclue2_manager.cpp:136-167 | A publication keeps the invariant and at most 25 locations. |
| Manager.ApplyValid | src/geoclue2_manager.cpp:90-370 | Every request, peer-vanish, timer firing and publication keeps the invariant. |
| Manager.RunValid | src/geoclue2_manager.cpp:90-370 | Over every run, InUse is "some client is active" and the count is the number of active registered clients. A pending timer implies none is active, and at most 25 locations are kept. |
| Manager.StopOnlyOnQuietGrace | src/geoclue2_manager.cpp:352-370 | The backend is stopped exactly when a pending timer fires with a backend set, and then no client is active. |
| Manager.StartOnlyOnFirstActivation | src/geoclue2_manager.cpp:90-108 | The backend is started exactly when a Start activates a client while none was active and a backend is set. |
| Manager.QuietOnlyAfterStop | src/geoclue2_manager.cpp:110-370 | After any event, some client is active, a timer is pending, or the event stopped the backend. |
| Manager.QuietGraceStops | src/geoclue2_manager.cpp:110-370 | The last client stopping arms one 15000 ms timer; its firing with nobody active stops the backend. |
| Manager.ReactivationWithinGrace | src/geoclue2_manager.cpp:90-370 | Restarting within the grace period cancels the timer, so its firing stops nothing. |
| Manager.ExtendContiguous | src/geoclue2_manager.cpp:138-166 | A suffix of a consecutively numbered history, followed by the next location, is consecutively numbered. |
| Manager.RememberContiguous | src/geoclue2_manager.cpp:138-166 | Remembering location number last + 1 keeps the numbering consecutive. |
| Manager.PositionUpdateHistory | src/geoclue2_manager.cpp:136-167 | One publication keeps the history consecutive and grows it by one up to 25. |
| Manager.RunFirstPosition | src/geoclue2_manager.cpp:136-167 | A run that starts with a fix publishes it first, with no effect. |
| Manager.PositionRunHistory | src/geoclue2_manager.cpp:136-167 | N publications take N consecutive ids, make no backend request, and keep the newest min(25, kept + N) locations, in order. |
| Manager.HistoryAfterManyFixes | src/geoclue2_manager.cpp:136-167 | After N >= 25 fixes, a new manager keeps exactly locations N-24 .. N. |
| Manager.NewestLocationIsTheFix | src/geoclue2_manager.cpp:138-148 | The newest kept location is the one just built, under the next path, exported, with the fix's coordinates, accuracy, speed and heading. |
| Manager.PublishPassesOverInactive | src/geoclue2_manager.cpp:151-156 | An inactive client receives nothing and is left as it was. |
| Manager.PublishReachesActive | src/geoclue2_manager.cpp:151-156 | An active client is moved to the new path and signals the move from its previous Location. |
| Manager.StartedClientReceivesNextFix | src/geoclue2_manager.cpp:151-156 | A new client is passed over until started; the first fix after that reaches it from "/". |
| Manager.StartClientMarksActive | src/geoclue2_client.cpp:119-129 | Starting a known client sets its flag and touches no location state. |
| Manager.GetClientReuses | src/geoclue2_manager.cpp:172-178 | A second GetClient from the same peer returns the same client and changes nothing. |
| Manager.CreateClientOrphansPrevious | src/geoclue2_manager.cpp:180-197 | CreateClient always makes a new client. The peer's earlier client stays registered by path, but no peer holds it. |
| Manager.RemoveActiveClientOnce | src/geoclue2_manager.cpp:209-231 | Removing an active client lowers the count once and arms the timer if it was the last. Removing it again only warns. |
| Manager.PeerVanishedOnce | src/geoclue2_manager.cpp:330-350 | The vanished peer's entry goes, taking with it only the client it held; a second notice does nothing. |
| Manager.VanishedPeerLeavesOverwrittenClient | src/geoclue2_manager.cpp:329-350 | After GetClient, CreateClient and a Start of the first client, the peer's vanishing removes only the second client. The first stays active and the backend keeps running. |
| Daemon.Boot | src/main.cpp:190-210 | At start-up the manager holds a backend that is not tracking; no client is active and no timer is pending. |
| Daemon.Apply | src/main.cpp:194-210 | Bus requests never publish. Legacy provider and velocity signals leave the manager untouched, and fixes and velocities make no legacy call. A fix takes the next location id. A request whose manager step asks neither start nor stop leaves the backend as it was, and set_backend or a fix arriving as a bus request is ignored. |
| Daemon.Perform | src/geoclue2_manager.cpp:103-106 | Requests other than start and stop leave the backend alone, and well-formedness is kept. A final stop leaves the backend idle. |
| Daemon.BootValid | src/main.cpp:190-210 | The daemon starts in a valid state. |
| Daemon.RequestValid | src/geoclue2_manager.cpp:90-370 | A bus request or timer firing keeps the daemon valid. The legacy service is tracked only while a client is active or a grace period runs. |
| Daemon.PositionSignalValid | src/main.cpp:194-201 | A position signal keeps the daemon valid. |
| Daemon.VelocitySignalValid | src/geoclue1_backend.cpp:159-193 | A velocity signal keeps the daemon valid. |
| Daemon.ApplyValid | src/main.cpp:194-210 | Every input keeps the daemon valid. |
| Daemon.RunValid | src/geoclue2_manager.cpp:90-370 | Whatever happens, the legacy service is never left tracking with no client active and no grace period running. |
| Daemon.PositionSignalPublishes | src/main.cpp:194-201 | A PositionChanged signal becomes the newest kept location, with the sample's coordinates and accuracy, and the stored velocity while fresh or -1.0 otherwise. |
| Daemon.PositionSignalNotifies | src/main.cpp:194-201 | The signal moves every active client to the new location from where it was, and passes over inactive ones. |
| Daemon.VelocitySignalStores | src/geoclue1_backend.cpp:177-182 | A VelocityChanged signal only refreshes the stored velocity: nothing is published and the manager is untouched. |
| Daemon.FirstClientStartsService | src/geoclue2_manager.cpp:90-108 | A peer's first GetClient and Start set up and start the legacy service with the calls of a complete set-up. |
| Daemon.FirstFixWithoutVelocity | src/geoclue1_backend.cpp:132-156 | A fix at 59 N 24 E with 15 m accuracy and no velocity yet is published with speed and heading -1, and reaches the active client. |
| Daemon.VelocityReachesNextFix | src/geoclue1_backend.cpp:141-182 | After a velocity of 0.5 m/s at 185.3 degrees, the next fix carries both, and the active client is moved on from where it was. |

## Findings

| source | as written | input that shows it | evidently intended | confidence | as-written member | corrected member |
|---|---|---|---|---|---|---|
| src/geoclue1_backend.cpp:283-316 | The GError freed after the client's AddReference or proxy failure is passed to SetRequirements, which GLib refuses, so the start fails. | A first start where every reply succeeds except the client's AddReference. | Carry on to SetRequirements and PositionStart, as the comment at :289 says. | not executed; assumes GLib's argument checks are on, as by default | LegacyBackend.AsWrittenClientReferenceFailureStopsStart | LegacyBackend.ClientReferenceFailureTolerated |
| src/geoclue1_backend.cpp:357-388 | The GError freed after the provider's RemoveReference failure is passed to the MasterClient's Geoclue proxy, which GLib refuses, so the MasterClient gets no RemoveReference. | A stop with a provider and a client held, where the provider's RemoveReference fails. | Release the MasterClient's reference whatever the provider's reply. | not executed; assumes GLib's argument checks are on, as by default | LegacyBackend.AsWrittenTeardownSkipsClientRelease | LegacyBackend.TeardownBestEffort |
| src/geoclue1_backend.cpp:494-520 | The GError freed after the new provider's AddReference failure is passed to the Position proxy, which GLib refuses, so the handler returns with no Position proxy and no subscriptions. | A provider announcement whose AddReference fails while every other step succeeds. | Keep going with the Position proxy and both subscriptions, as the comment at :505 says. | not executed; assumes GLib's argument checks are on, as by default | LegacyBackend.AsWrittenProviderReferenceFailureDropsPosition | LegacyBackend.ProviderReferenceFailureTolerated |

## Left out

- D-Bus mechanics are left out: skeleton export and unexport, GVariant marshalling, proxy objects and bus-name watching. A client or location whose export failed (`m_skeleton` null) is not modelled; every export is taken to succeed.
- Floating point is not modelled. Coordinates and speeds are opaque reals, and NaN is a tag.
- Real time is not modelled. The `clock_gettime` fallback is a clock parameter. The 15000 ms timer is an armed flag with an explicit firing event.
- The order of iteration over `unordered_map` is not modelled. The broadcast is a map comprehension, and each client's outcome is independent of the others.
- The backend's own id allocation is not modelled. Signal-subscription ids come from a counter; GLib's real ids are not modelled.
- Ids and counters are unbounded: `guint` wrap-around of client, location and subscription ids is not modelled.
- Logging (`g_message`, `g_debug`) is left out. A `g_warning` on a consistency fault is the `Warning` effect.
- The manager and backend destructors, and the `stop_tracking` call at shutdown in `main.cpp`, are left out. They run only at process exit.
- The client metadata properties DesktopId, RequestedAccuracyLevel and the two thresholds are only initialised. They are settable only through D-Bus property writes, which are not part of this model.
- `main.cpp` option parsing, Unix signal handling and bus-name acquisition are left out. The grace period is the header's 15000 ms because the parsed `--grace-timeout` is never passed on.
- `set_backend` is called once, by `main.cpp`, at start-up. The daemon composition therefore admits it only in `Daemon.Boot`, not as a bus request.
- The velocity callback installed by `main.cpp` only logs. `FixMerger.OnVelocity` returns the raw values it would receive, and the daemon drops them.
- AddAgent is accepted and ignored, as in the code: there is no authorisation agent. It is an event of `Manager.Apply` that changes nothing.
- The daemon accepts the legacy provider, position and velocity signals in every state, even when the matching subscription id is 0. In the code they arrive only through the subscriptions made at `src/geoclue1_backend.cpp:247-254` and `:531-550`. Every property stated here holds for any order of inputs, so admitting more orders loses nothing.
- The reuse of a freed `GError` is modelled only as far as GLib's refusal of the next call. The read of the freed message and the second free that follow are undefined behaviour and are not modelled. With GLib's argument checks compiled out, the outcome is not modelled either.
- The interactive test client under `test/` is not part of this model.
- Decimal.ParseLongLong: the C locale is assumed, so `isspace` is the six ASCII white-space characters.
- Daemon.FirstFixWithoutVelocity and Daemon.VelocityReachesNextFix: the full fix-velocity-fix scenario is stated as these two steps plus `Daemon.PositionSignalPublishes`, rather than as one statement.
