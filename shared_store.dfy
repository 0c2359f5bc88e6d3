// Several components over one store: the rider screen runs the ride
// request hook beside the operator's live location, while operators accept
// rides and publish fixes against the same documents and listeners. Each
// method below runs one component's operation and shows that the other
// component's invariant on the shared store still holds afterwards.

module SharedStore {
  import opened Common
  import opened RideRecords
  import opened LocationService
  import opened FirebaseService
  import opened UseRideRequest
  import opened UseOperatorLiveLocation
  import opened UseOperatorTracking
  import opened OperatorDashboard

  /** A rider creating a request leaves the live-location hook beside it
      valid: the new listener is fresh and the listener dropped was a ride
      listener, never the presence one. */
  method CreateBesideLiveLocation(hook: RideRequestHook, live: OperatorLiveLocation,
                                  pickup: Pickup, now: Timestamp, fault: Option<Thrown>)
      returns (r: Option<RideId>)
    requires hook.backend == live.backend && hook.Valid() && live.Valid()
    modifies hook, hook.backend
    ensures hook.Valid() && live.Valid()
    ensures live.loc == old(live.loc) && live.subscription == old(live.subscription)
  {
    r := hook.Create(pickup, now, fault);
  }

  /** A rider cancelling leaves the live-location hook valid. */
  method CancelBesideLiveLocation(hook: RideRequestHook, live: OperatorLiveLocation, now: Timestamp, fault: Option<Thrown>)
    requires hook.backend == live.backend && hook.Valid() && live.Valid()
    modifies hook, hook.backend
    ensures hook.Valid() && live.Valid()
    ensures live.loc == old(live.loc) && live.subscription == old(live.subscription)
  {
    hook.Cancel(now, fault);
  }

  /** The live-location hook following a new `operatorId` leaves the ride
      request hook valid, so its listener can still deliver snapshots. */
  method SetOperatorBesideRideRequest(hook: RideRequestHook, live: OperatorLiveLocation, operatorId: Option<string>)
    requires hook.backend == live.backend && hook.Valid() && live.Valid()
    modifies live, live.backend
    ensures hook.Valid() && live.Valid()
    ensures hook.listener == old(hook.listener) && hook.currentRequest == old(hook.currentRequest)
  {
    live.SetOperator(operatorId);
  }

  /** An operator accepting a ride leaves the rider's hook valid; its next
      snapshot shows the accepted document. */
  method AcceptThenRiderSnapshot(dash: Dashboard, hook: RideRequestHook, id: RideId, now: Timestamp,
                                 fault: Option<Thrown>)
    requires dash.backend == hook.backend && dash.Valid() && hook.Valid() && hook.listener.Some?
    modifies dash.backend, hook`currentRequest, hook`loading, hook`error
    ensures dash.Valid() && hook.Valid()
    ensures hook.currentRequest == hook.backend.RideSnapshot(hook.listener.value, now, None)
  {
    var r := dash.AcceptRide(id, now, fault);
    hook.OnSnapshot(now, None);
  }

  /** An operator publishing a fix leaves the rider's live-location hook
      valid; its next snapshot reads the written presence record. */
  method FixThenLiveSnapshot(tracker: OperatorTracker, live: OperatorLiveLocation, hook: RideRequestHook,
                             fix: LocationData, now: Timestamp, fault: Option<Thrown>)
    requires tracker.backend == live.backend && live.backend == hook.backend
    requires tracker.Valid() && tracker.Watching() && live.Valid() && hook.Valid() && live.subscription.Some?
    modifies tracker`last, tracker.backend, live`loc
    ensures tracker.Valid() && live.Valid() && hook.Valid()
    ensures var d := live.backend.PresenceSnapshot(live.subscription.value);
            live.loc == if d.Some? && d.value.location.Some? then d.value.location else old(live.loc)
  {
    tracker.OnFix(fix, now, fault);
    live.OnSnapshot();
  }
}
