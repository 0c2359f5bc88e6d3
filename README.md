# Cart-hailing core in Dafny

This project models the core of a two-sided cart-hailing app. A rider asks for
a pickup and an operator accepts it, and the two sides meet only through a
shared document store. The model covers:

- the ride-request documents and store operations of `FirebaseService`;
- the rider-side coordinator `useRideRequest`;
- the operator's acceptance and the dashboard queries;
- the location service, with its permission check, two-tier single-fix
  fallback and watch options;
- the rider's location hook, with its extra outer retry;
- the operator's location publisher and the rider's register of the
  operator's position;
- the ETA arithmetic;
- the presentation rules of the ride status card.
- components sharing one store: each hook's own operations keep every
  other hook's invariant, and so the handles it holds (`SharedStore`).

How the outside world enters the model:

- **Store.** The store is a class (`FirebaseService.Backend`). It holds one map
  per collection (`rideRequests`, `users`, `operators`) and the registry of live
  snapshot listeners. A ghost log records every subscribe and unsubscribe, in
  order.
- **Store failures.** A failure of a store call is a `fault` argument. With
  `fault == Some(e)`, the call rejects with `e`.
- **Ids.** Document ids are natural numbers handed out by a counter.
- **Time.** Timestamps are integers, and every clock or server timestamp is a
  `now` argument.
- **Device.** The device is a class (`LocationService.Device`). Its permission
  dialog and positioning provider answer from scripts:
  - the dialog takes the next answer, or a dismissal when the script is empty;
  - the provider takes the next outcome, or a timeout (code 3) when the script
    is empty.
- **Hooks.** Each React hook is a class whose fields are its state and refs. An
  effect is a method, called when the effect's inputs change. It first runs the
  previous run's cleanup, if that run returned one, and then its own body. A
  snapshot or watch callback is a method of the hook that registered it.
- **Pure code.** The pure parts are functions: record builders, decoding, query
  filters, error messages, status tables and the ETA.

Some behaviours of the code that the model keeps as they are:

- **Cancel.** Cancelling writes status `cancelled` whatever the current status
  is (`UseRideRequest.RideRequestHook.Cancel`).
- **Accept.** Acceptance is an unconditional update, and a later acceptance
  overwrites an earlier operator (`OperatorDashboard.LaterAcceptanceWins`).
- **`operatorId` and status.** `operatorId` is not tied to the status by an
  if-and-only-if. A request cancelled after acceptance keeps its operator
  (`OperatorDashboard.CancelAfterAcceptKeepsOperator`). A status update to
  accepted without operator details writes no operator
  (`RideRecords.AcceptedWithoutOperator`). Three facts do hold:
  - a stored `operatorId` always comes with `operatorInfo` and `acceptedAt`,
    part of `Backend.Valid`;
  - `operatorId` is written only together with status accepted
    (`OperatorDashboard.OperatorIdOnlyWithAccepted`);
  - a request's current `operatorId` is the one written by its last
    acceptance (`OperatorDashboard.OperatorIdFromLastAcceptance`).
- **Listener order.** After a request is created, the listener on it is
  registered before the previous listener is dropped
  (`UseRideRequest.RideRequestHook.Follow`).
- **Operator location.** When the operator id goes away, the last known
  location is kept, not cleared
  (`UseOperatorLiveLocation.OperatorLiveLocation.SetOperator`).
- **Accuracy.** The first provider request asks for high accuracy unless the
  caller says otherwise (`LocationService.FirstAttempt`).
- **Retry after denial.** When the rider's first call fails because permission
  was denied, the hook's second call asks for permission again and, if it is
  granted, requests a fix (`UseLocation.Locate`, `UseLocation.LocationHook.GetCurrentPosition`).

## Model

| member | source | states |
|---|---|---|
| `RideRecords.ParseStatus` | src/services/FirebaseService.ts:26 | a stored status string names status `st` exactly when it is `st`'s name, so parsing inverts naming |
| `RideRecords.RiderInfoFrom` | src/services/FirebaseService.ts:172-175 | `riderInfo` has a display name or phone number exactly when the profile's is present and non-empty; the value is the profile's; no empty field is stored |
| `RideRecords.StoredPickup` | src/services/FirebaseService.ts:180-184 | the stored location copies latitude and longitude exactly; it has an address exactly when a non-empty one was given |
| `RideRecords.NewRideDoc` | src/services/FirebaseService.ts:177-196 | a new request is pending and belongs to the rider; it has the filtered rider info and pickup and `requestedAt` = now; it has no operator, operator info, acceptance, completion or arrival time |
| `RideRecords.Decode` | src/services/FirebaseService.ts:213-222 | a decoded request carries the document id; `requestedAt` defaults to now; every other field is the stored one (re-encoding gives the document back, with `requestedAt` filled in) |
| `RideRecords.Encode` | src/services/FirebaseService.ts:213-222 | the document a decoded request stands for always has a `requestedAt` |
| `RideRecords.DecodeEncode` | src/services/FirebaseService.ts:213-222 | decoding inverts encoding whatever the clock says |
| `RideRecords.DecodeUser` | src/services/FirebaseService.ts:112-120 | phone falls back from the profile to the sign-in phone to ''; `userType` defaults to rider, `isActive` to true, `hasSelectedRole` to false and `createdAt` to now; a stored `false` is kept |
| `RideRecords.StatusUpdate` | src/services/FirebaseService.ts:237-250 | status is always written; operator id, info and acceptance time are written exactly when the status is accepted and operator details are given; `completedAt` = now exactly for completed |
| `RideRecords.ApplyUpdate` | src/services/FirebaseService.ts:252-255 | the fields in the update are overwritten and every other field keeps its value; an update that writes an operator with its info and time keeps documents operator-stamped |
| `RideRecords.AcceptedWithoutOperator` | src/services/FirebaseService.ts:239-246 | an accepted status update without operator details leaves a new request accepted with no `operatorId` |
| `RideRecords.MergePresence` | src/hooks/useOperatorTracking.ts:30-34 | the presence record gets available = true, the location and `updatedAt` = now; its other fields are those of the prior record, or none when it did not exist |
| `RideQueries.Select` | src/services/FirebaseService.ts:299-301 | a `where` query returns exactly the stored ids that match every clause, each once, in increasing id order |
| `RideQueries.Insert` | src/services/FirebaseService.ts:302 | inserting into a result sorted newest first keeps it sorted and adds exactly the one id, as a multiset |
| `RideQueries.SortDesc` | src/services/FirebaseService.ts:302 | `orderBy('requestedAt', 'desc')` yields a permutation of its input, newest first, equal times larger id first |
| `RideQueries.OrderedSelect` | src/services/FirebaseService.ts:299-303 | an ordered query returns exactly the matching documents that have a `requestedAt`, newest first |
| `RideQueries.PendingIds` | src/services/FirebaseService.ts:299-303 | the pending query returns exactly the pending requests with a `requestedAt`, newest first |
| `RideQueries.RiderOrdered` | src/services/FirebaseService.ts:325-328 | the rider query, before its limit, returns exactly that rider's requests with a `requestedAt`, newest first |
| `RideQueries.RiderIds` | src/services/FirebaseService.ts:325-330 | the rider query returns at most ten requests, all of that rider, newest first |
| `RideQueries.RiderIdsAreTheNewest` | src/services/FirebaseService.ts:325-330 | when the rider query leaves out one of the rider's requests, it has returned ten, each newer than the one left out |
| `RideQueries.RiderDecodedComplete` | src/services/FirebaseService.ts:325-343 | the same for the decoded rider result: a request of the rider whose id no decoded entry carries means ten entries came back, each newer than it |
| `RideQueries.Entries` | src/components/OperatorDashboard.tsx:28-29 | a snapshot lists each result id with its stored document, in result order |
| `RideQueries.DecodeAll` | src/services/FirebaseService.ts:305-315 | a query result decodes document by document, in result order |
| `RideQueries.DecodedNewestFirst` | src/services/FirebaseService.ts:305-315 | decoding an ordered result keeps its ids and keeps it newest first |
| `FirebaseService.Backend.constructor` | src/services/FirebaseService.ts:350 | the store starts with the given profiles, no requests, no presence records and no listeners |
| `FirebaseService.Backend.CreateRideRequest` | src/services/FirebaseService.ts:151-204 | a failure rejects with its error; a missing rider document rejects with 'Rider document not found' and adds nothing; otherwise exactly one new request, `NewRideDoc`, is added under the returned fresh id and the id counter moves past it; nothing else changes |
| `FirebaseService.Backend.GetRideRequest` | src/services/FirebaseService.ts:206-229 | the decoded request when it exists and the read succeeds, null otherwise |
| `FirebaseService.Backend.UpdateRide` | src/services/FirebaseService.ts:252-255 | a field update of an existing request applies `ApplyUpdate`; a missing request or a failure rejects and changes nothing; listeners, profiles, presence records, the subscription log and both counters never change |
| `FirebaseService.Backend.UpdateRideRequestStatus` | src/services/FirebaseService.ts:231-260 | writes `StatusUpdate` to the request and nothing else, rejecting as `UpdateRide` does |
| `FirebaseService.Backend.Listen` | src/services/FirebaseService.ts:267-270 | registers a listener under a fresh handle and logs the subscription; no document changes |
| `FirebaseService.Backend.Unsubscribe` | src/services/FirebaseService.ts:293 | removes the listener; calling it again changes nothing further |
| `FirebaseService.Backend.RideSnapshot` | src/services/FirebaseService.ts:271-291 | a request listener delivers the decoded request when it exists, and null when it is missing or the listener fails |
| `FirebaseService.Backend.QuerySnapshot` | src/components/OperatorDashboard.tsx:28-29 | a query listener lists every matching request with its stored fields, in id order, each once |
| `FirebaseService.Backend.PresenceSnapshot` | src/hooks/useOperatorLiveLocation.ts:10-11 | a presence listener delivers the operator's record when it exists, and nothing otherwise |
| `FirebaseService.Backend.MergeOperatorPresence` | src/hooks/useOperatorTracking.ts:30-34 | a merge write sets the operator's record to `MergePresence` of the prior one and changes nothing else; a failure changes nothing |
| `FirebaseService.Backend.PendingRideRequests` | src/services/FirebaseService.ts:297-320 | every stored pending request with a `requestedAt` and no other document, each decoded; the ids strictly in `orderBy('requestedAt', 'desc')` order, so each appears once; [] on failure |
| `FirebaseService.Backend.RiderRequests` | src/services/FirebaseService.ts:323-347 | at most ten of the rider's requests with a `requestedAt`, each decoded, the ids strictly newest first; a request of the rider left out of a successful read means ten newer ones were returned; [] on failure |
| `LocationService.PermissionGranted` | src/services/LocationService.ts:28-56 | iOS always grants; Android grants exactly when fine or coarse location is granted |
| `LocationService.ToLocationData` | src/services/LocationService.ts:15-26 | copies latitude, longitude, accuracy and timestamp; altitude, heading and speed are copied, absent staying null |
| `LocationService.FormatLocationError` | src/services/LocationService.ts:131-149 | the user-facing message for codes 1, 2 and 3, and 'Location error: ' with the provider's message (or 'Unknown error') for any other code; its properties are `FormatLocationErrorCategory` |
| `LocationService.FormatLocationErrorCategory` | src/services/LocationService.ts:131-149 | codes 1, 2 and 3 give the permission, unavailable and timeout messages and can be told back from them; any other code gives 'Location error: ' with the message or 'Unknown error'; no message is empty |
| `LocationService.FirstAttempt` | src/services/LocationService.ts:162-178 | the first request allows a cached fix up to `cacheMs` (default 120000); its timeout is `timeoutMs` (default 12000); it uses the default provider and high accuracy by default |
| `LocationService.FallbackAttempt` | src/services/LocationService.ts:184-190 | the fallback asks for a fresh fix from the location manager; its timeout is the larger of 15000 and the first timeout |
| `LocationService.Acquire` | src/services/LocationService.ts:156-196 | the requests and result of one `getCurrentPosition` call, from the permission answer and the provider script; what it does is stated by `AcquireContract` |
| `LocationService.AcquireContract` | src/services/LocationService.ts:156-196 | in the chain `Acquire` describes, denied permission fails with 'Location permission denied' and makes no request; otherwise the first request runs; a second runs exactly when the first failed and fallback is not disabled; the result is the last request's fix or formatted error |
| `LocationService.AcquireErrorNonEmpty` | src/services/LocationService.ts:180-194 | every failure of `getCurrentPosition` has a non-empty message |
| `LocationService.Device.constructor` | src/services/LocationService.ts:28-62 | the source has no such constructor: `Device` is the scripted platform behind the permission calls and `Geolocation`, and it starts with its platform, answer and outcome scripts, no requests and no watches |
| `LocationService.Device.RequestLocationPermissions` | src/services/LocationService.ts:28-56 | answers `PermissionGranted` for the next dialog answer; only Android consumes one |
| `LocationService.Device.GetPosition` | src/services/LocationService.ts:58-62 | one provider request with its options, answered by the next scripted outcome |
| `LocationService.Device.GetCurrentPosition` | src/services/LocationService.ts:156-196 | makes exactly the requests `Acquire` lists, in order, and returns its result |
| `LocationService.WatchDefaults` | src/services/LocationService.ts:227-236 | watch defaults are high accuracy, timeout 15000, maximum age 0, distance 10, interval 5000, fastest 3000, the dialog shown and the fused provider |
| `LocationService.Device.WatchPosition` | src/services/LocationService.ts:214-256 | with permission denied, `onError` gets the denial once (when given), the call rejects and no watch starts; otherwise exactly one fresh watch starts with `WatchDefaults` |
| `LocationService.Device.ClearWatch` | src/services/LocationService.ts:261-263 | stops the watch; a second call is a no-op |
| `UseLocation.Locate` | src/hooks/useLocation.ts:22-48 | the hook makes at most four provider requests |
| `UseLocation.LocatePrompts` | src/hooks/useLocation.ts:22-48 | the permission prompts the hook consumes: none on iOS; on Android two when both calls fail, since each call asks again |
| `UseLocation.LocateAllFail` | src/hooks/useLocation.ts:24-41 | with permission granted and every request failing, exactly four requests run in this order: cached 2 min / 12 s, fresh 15 s through the location manager, fresh 15 s, fresh 15 s through the location manager; the fourth error is surfaced |
| `UseLocation.LocateFirstFix` | src/hooks/useLocation.ts:30-43 | a successful call carries the fix of its last request, and every earlier request failed |
| `UseLocation.LocateErrorIsSecond` | src/hooks/useLocation.ts:44-47 | a failed call reports the second call's error, which is never empty |
| `UseLocation.LocationHook.constructor` | src/hooks/useLocation.ts:13-15 | no location, not loading, no error |
| `UseLocation.LocationHook.GetCurrentPosition` | src/hooks/useLocation.ts:17-52 | makes the requests `Locate` lists; on success `location` is the fix and `error` is cleared; on failure `location` is unchanged and `error` is the second failure's message (or 'Unable to get location'); `loading` ends false; the permission prompts left are `LocatePrompts` of the old ones |
| `UseLocation.LocationHook.Primary` | src/hooks/useLocation.ts:22-31 | the first call makes the requests `Acquire` lists for the cached-fix options and consumes one permission prompt; it reports whether a fix came back, and only a fix sets `location` |
| `UseLocation.LocationHook.Retry` | src/hooks/useLocation.ts:33-48 | the second call makes the requests `Acquire` lists for the fresh-fix options; a fix sets `location`, a failure sets `error` to its message or 'Unable to get location' |
| `UseLocation.LocationHook.ClearError` | src/hooks/useLocation.ts:54-56 | `error` becomes null and nothing else changes |
| `UseRideRequest.StatusMessage` | src/hooks/useRideRequest.tsx:121-140 | the message for each of the six statuses, '' otherwise and without a request; its properties are `StatusMessageNonEmpty` and `StatusMessageDistinct` |
| `UseRideRequest.HasActiveRequest` | src/hooks/useRideRequest.tsx:117-118 | true exactly when a request is held and its status is pending, accepted or on the way |
| `UseRideRequest.StatusMessageNonEmpty` | src/hooks/useRideRequest.tsx:121-140 | the status message is '' exactly when no request is held or its status is none of the six |
| `UseRideRequest.StatusMessageDistinct` | src/hooks/useRideRequest.tsx:124-137 | different statuses get different messages |
| `UseRideRequest.RideRequestHook.constructor` | src/hooks/useRideRequest.tsx:11-17 | no request, not loading, no error, no listener |
| `UseRideRequest.RideRequestHook.Create` | src/hooks/useRideRequest.tsx:20-60 | without a rider: error 'User not authenticated' and no write; on failure: loading off and the error's message or 'Failed to create ride request'; on success: one request added, a listener on it registered before the previous one is dropped, exactly one of the hook's listeners left live; the id and handle counters move by one on success and not otherwise, and profiles and presence records do not change |
| `UseRideRequest.RideRequestHook.Follow` | src/hooks/useRideRequest.tsx:33-48 | a listener on the new request is registered and held, and the previous one is dropped (in the callback and again in the effect cleanup); the handle counter moves by one; no ride, profile, presence or ride-id counter changes |
| `UseRideRequest.RideRequestHook.OnSnapshot` | src/hooks/useRideRequest.tsx:34-41 | every snapshot replaces `currentRequest` with the delivered value (possibly null) and clears loading and error |
| `UseRideRequest.RideRequestHook.Cancel` | src/hooks/useRideRequest.tsx:63-93 | without a request nothing changes; otherwise cancelled is written whatever the status; success drops the listener and clears the request; failure keeps both and sets the error; profiles, presence records and both counters never change |
| `UseRideRequest.RideRequestHook.Release` | src/hooks/useRideRequest.tsx:74-78 | the held listener is dropped (in the callback and again in the effect cleanup) and none is held afterwards; rides, profiles, presence records and both counters do not change |
| `UseRideRequest.RideRequestHook.RiderRequests` | src/hooks/useRideRequest.tsx:96-105 | [] without a rider, otherwise the store's rider query |
| `UseRideRequest.RideRequestHook.Unmount` | src/hooks/useRideRequest.tsx:108-114 | the held listener, if any, is dropped and logged once; afterwards no listener of the hook is live; nothing else in the store changes |
| `UseOperatorTracking.TrackingOptions` | src/hooks/useOperatorTracking.ts:40-45 | the publisher's watch uses high accuracy, distance 10, interval 5000 and the location manager |
| `UseOperatorTracking.OperatorTracker.constructor` | src/hooks/useOperatorTracking.ts:8-9 | no watch and no last location |
| `UseOperatorTracking.OperatorTracker.Effect` | src/hooks/useOperatorTracking.ts:11-61 | without a user or when disabled, the held watch is cleared and the ref nulled; otherwise exactly one watch starts with the tracking options; a failed start leaves the ref; at most one of the hook's watches is live |
| `UseOperatorTracking.OperatorTracker.OnFix` | src/hooks/useOperatorTracking.ts:26-36 | `last` becomes the fix's coordinates and the operator's presence record is merge-written with them (a failed write changes nothing); nothing else in the store changes |
| `UseOperatorTracking.OperatorTracker.OnWatchError` | src/hooks/useOperatorTracking.ts:37-39 | a watch error changes neither `last`, the ref nor the presence record |
| `UseOperatorTracking.OperatorTracker.Cleanup` | src/hooks/useOperatorTracking.ts:57-60 | the cleanup of the latest effect run (run before the next run and on unmount) clears the held watch without nulling the ref; afterwards none of the hook's watches runs |
| `UseOperatorLiveLocation.OperatorLiveLocation.constructor` | src/hooks/useOperatorLiveLocation.ts:6 | `loc` starts as null |
| `UseOperatorLiveLocation.OperatorLiveLocation.SetOperator` | src/hooks/useOperatorLiveLocation.ts:7-15 | the previous subscription is dropped before any new one is made; with no id none is made; `loc` is not reset; the handle counter moves by one exactly when a listener is made, and nothing else in the store changes |
| `UseOperatorLiveLocation.OperatorLiveLocation.OnSnapshot` | src/hooks/useOperatorLiveLocation.ts:10-13 | `loc` becomes the record's location when it has one, and is otherwise unchanged |
| `UseOperatorLiveLocation.OperatorLiveLocation.Unmount` | src/hooks/useOperatorLiveLocation.ts:14 | the held subscription, if any, is dropped and logged once; afterwards no listener of the hook is live; nothing else in the store changes |
| `Geo.JsRound` | src/utils/geo.ts:14 | `Math.round` on a real; that it gives the nearest integer, ties up, is `JsRoundNearest` |
| `Geo.JsRoundNearest` | src/utils/geo.ts:14 | `Math.round(x)` is the integer within half a unit of `x`, ties rounding up |
| `Geo.EtaMinutes` | src/utils/geo.ts:12-15 | the ETA is always at least one minute |
| `Geo.DefaultPace` | src/utils/geo.ts:12-13 | at the default 15 km/h a minute covers 250 m |
| `Geo.EtaIsRoundedTime` | src/utils/geo.ts:14 | a rounded time of at least one minute is the result, otherwise the result is 1; distance 0 gives 1 |
| `Geo.EtaMonotone` | src/utils/geo.ts:13-14 | for a fixed positive speed a longer distance never gives a shorter ETA |
| `RideStatus.StatusColor` | src/components/RideStatus.tsx:19-36 | the colour for each status, grey for any other string; its grouping is `StatusColorGroups` |
| `RideStatus.StatusColorGroups` | src/components/RideStatus.tsx:19-36 | pending is orange, accepted blue, cancelled red, on the way / arrived / completed green, anything else grey, each colour exactly for its statuses |
| `RideStatus.StatusText` | src/components/RideStatus.tsx:38-55 | the card text for each status, 'Unknown status' for any other string; its agreement with the hook is `StatusTextIsStatusMessage` |
| `RideStatus.StatusTextIsStatusMessage` | src/components/RideStatus.tsx:38-55 | the card text equals the hook's status message for the six statuses; any other status gives 'Unknown status' (the hook gives '') |
| `RideStatus.Render` | src/components/RideStatus.tsx:17-57 | nothing is rendered without a request; the card has the status colour and text; a cancel button is shown exactly for a pending request with a cancel handler, disabled while loading |
| `RideStatus.CancelOnlyWhenActive` | src/components/RideStatus.tsx:137 | a request the card offers to cancel is one the hook counts as active |
| `OperatorDashboard.AcceptUpdate` | src/components/OperatorDashboard.tsx:33-40 | acceptance writes status accepted, `operatorId` = the operator's uid, `operatorInfo` with '' for a missing name or phone, and `acceptedAt`; it does not touch `completedAt` |
| `OperatorDashboard.OperatorIdOnlyWithAccepted` | src/components/OperatorDashboard.tsx:34-39 | both writers (status update and acceptance) write `operatorId` only with status accepted, and with its info and time |
| `OperatorDashboard.OperatorIdFromLastAcceptance` | src/components/OperatorDashboard.tsx:34-39 | after any run of writes, a request's `operatorId` was written by an acceptance, and no later write touched it |
| `OperatorDashboard.LaterAcceptanceWins` | src/components/OperatorDashboard.tsx:34-39 | a second acceptance overwrites the first operator and acceptance time |
| `OperatorDashboard.AcceptanceKeepsRiderFields` | src/components/OperatorDashboard.tsx:34 | acceptance applies whatever the status and leaves rider, rider info, pickup, request time and completion time unchanged |
| `OperatorDashboard.CancelAfterAcceptKeepsOperator` | src/hooks/useRideRequest.tsx:69-72 | a request cancelled after acceptance is cancelled and still has its operator |
| `OperatorDashboard.PendingQueryExact` | src/components/OperatorDashboard.tsx:23 | the pending query matches exactly the pending requests |
| `OperatorDashboard.AcceptedQueryExact` | src/components/OperatorDashboard.tsx:24-26 | the accepted query matches exactly the accepted requests of this operator |
| `OperatorDashboard.Dashboard.constructor` | src/components/OperatorDashboard.tsx:17-20 | both lists start empty, with no listeners |
| `OperatorDashboard.Dashboard.Mount` | src/components/OperatorDashboard.tsx:22-29 | the mount effect registers one listener per query under the next two handles, logged in that order; nothing else in the store changes |
| `OperatorDashboard.Dashboard.OnPendingSnapshot` | src/components/OperatorDashboard.tsx:28 | the pending list becomes exactly the pending requests with their stored fields, in id order |
| `OperatorDashboard.Dashboard.OnAcceptedSnapshot` | src/components/OperatorDashboard.tsx:29 | the accepted list becomes exactly this operator's accepted requests, in id order |
| `OperatorDashboard.Dashboard.AcceptRide` | src/components/OperatorDashboard.tsx:33-40 | writes `AcceptUpdate` to an existing request whatever its status; a missing request or a failure rejects and changes nothing |
| `OperatorDashboard.Dashboard.Unmount` | src/components/OperatorDashboard.tsx:30 | both query listeners are dropped and each drop is logged; nothing else in the store changes |
| `SharedStore.CreateBesideLiveLocation` | src/components/RiderDashboard.tsx:33-57 | a rider's `createRideRequest` keeps the live-location hook on the same screen valid and leaves its `loc` and subscription |
| `SharedStore.CancelBesideLiveLocation` | src/components/RiderDashboard.tsx:33-57 | a rider's `cancelRideRequest` keeps the live-location hook valid and leaves its `loc` and subscription |
| `SharedStore.SetOperatorBesideRideRequest` | src/components/RiderDashboard.tsx:57 | the live-location hook following a new `operatorId` keeps the ride request hook valid and leaves its listener and request |
| `SharedStore.AcceptThenRiderSnapshot` | src/components/OperatorDashboard.tsx:33-40 | after an operator's `acceptRide` the rider's hook is still valid and its next snapshot is the store's document |
| `SharedStore.FixThenLiveSnapshot` | src/hooks/useOperatorTracking.ts:26-36 | after an operator's fix is published the rider's hooks are still valid and the live map's next snapshot reads the presence record |

## Left out

- Phone sign-in and profile writes are not modelled: `startPhoneSignIn`, `confirmPhoneCode`, `ensureProfile`, `updateUserRole`, `signOut` and the `phoneConfirmation` field. They wrap the authentication SDK. `getCurrentUser`'s decoding is modelled (`DecodeUser`); its reads are not.
- `haversine`, `calculateDistance`, `formatCoordinate` and `formatTimestamp` are left out: they are trigonometry and locale formatting. So is the single-permission `requestLocationPermission`, which the core does not call. `Geo.EtaMinutes` takes the distance as a `real`.
- `Geo.EtaMinutes` requires a non-zero speed. With speed 0 the source divides by zero and yields `Infinity` or `NaN`, which have no counterpart over `real`. Numbers are exact reals, with no rounding error.
- Concurrency and effect scheduling are not modelled: races between clients, async interleavings, stale closures and React batching. Each call, callback and effect runs to completion on its own. Snapshot delivery is a method the caller invokes. Nothing forces a snapshot after each write.
- `UseLocation.LocationHook.GetCurrentPosition` states only the final `loading` (false). The intermediate renders with `loading` true are not recorded. The mount effect that calls it once is left to the caller.
- `UseRideRequest.RideRequestHook.Create` does not deliver the first snapshot itself. That is `OnSnapshot`, so `currentRequest` is unchanged and `loading` stays true until then.
- `UseOperatorTracking.OperatorTracker.OnFix` ignores the merge write's result. In the source an unawaited rejection is unhandled. `Dashboard.AcceptRide` returns the rejection to its caller.
- `OperatorDashboard.Dashboard.Mount` requires both subscriptions to be absent, and `user` is fixed for the component's life. The source's effect also re-runs, with its cleanup first, when `user.uid` changes; the model has no such change of operator.
- Console logging, map and UI rendering beyond the status card's colour, text and button, styles, timers and animations, and app wiring are not modelled.
- Firestore is abstract here:
  - string document ids are counter-issued naturals, so an id is never falsy;
  - server timestamps are a `now` argument;
  - a where-only query lists documents in id order;
  - an ordered query breaks equal `requestedAt` values by the larger id first, following the direction of Firestore's implicit order on the document name.
- Store, provider and permission-dialog failures are arguments or scripts. The model does not decide when they happen.
