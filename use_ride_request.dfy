/** src/hooks/useRideRequest.tsx: the rider-side coordinator. It holds the
    current request, a loading flag, the last error and at most one snapshot
    listener, and it creates, follows and cancels a ride request through the
    store. */
module UseRideRequest {
  import opened Common
  import opened RideRecords
  import opened FirebaseService

  const NotAuthenticated := "User not authenticated"
  const CreateFailed := "Failed to create ride request"
  const CancelFailed := "Failed to cancel ride request"

  /** `hasActiveRequest`: a request is held and its status is pending,
      accepted or on the way. */
  function HasActiveRequest(current: Option<RideRequest>): (active: bool)
    ensures active <==> current.Some? && ParseStatus(current.value.status) in {Some(Pending), Some(Accepted), Some(OnWay)}
  {
    current.Some? && current.value.status in ["pending", "accepted", "on_way"]
  }

  /** `getStatusMessage` */
  function StatusMessage(current: Option<RideRequest>): string {
    if current.None? then ""
    else
      match current.value.status
      case "pending" => "Looking for available cart..."
      case "accepted" => "Cart assigned! Getting ready..."
      case "on_way" => "Your cart is on the way!"
      case "arrived" => "Your cart has arrived!"
      case "completed" => "Ride completed. Thank you!"
      case "cancelled" => "Ride was cancelled."
      case _ => ""
  }

  /** The message is empty exactly when no request is held or its status is
      none of the six. */
  lemma StatusMessageNonEmpty(a: Option<RideRequest>)
    ensures StatusMessage(a) != "" <==> a.Some? && ParseStatus(a.value.status).Some?
  {
  }

  /** Different statuses get different messages. */
  lemma StatusMessageDistinct(a: RideRequest, b: RideRequest)
    requires StatusMessage(Some(a)) != "" && StatusMessage(Some(a)) == StatusMessage(Some(b))
    ensures a.status == b.status
  {
    StatusMessageNonEmpty(Some(a));
    var m := StatusMessage(Some(a));
    assert m[0] != 'Y' ==> a.status == b.status;
  }

  class RideRequestHook {
    const backend: Backend
    /** The signed-in rider, if any. */
    const riderId: Option<string>
    var currentRequest: Option<RideRequest>
    var loading: bool
    var error: Option<string>
    /** `unsubscribeListener` */
    var listener: Option<Handle>
    /** Every listener this hook has registered. */
    ghost var registered: set<Handle>

    /** Of the listeners this hook registered, the held one (and only it) is
        still live, and it follows a ride request. */
    ghost predicate Valid()
      reads this, backend
    {
      && backend.Valid()
      && (forall h :: h in registered ==> h < backend.nextHandle)
      && (forall h :: h in registered && h in backend.listeners ==> listener == Some(h))
      && (listener.Some? ==>
            listener.value in registered && listener.value in backend.listeners
            && backend.listeners[listener.value].RideTarget?)
    }

    constructor (backend: Backend, riderId: Option<string>)
      requires backend.Valid()
      ensures Valid()
      ensures this.backend == backend && this.riderId == riderId
      ensures currentRequest == None && !loading && error == None && listener == None && registered == {}
    {
      this.backend, this.riderId := backend, riderId;
      currentRequest, loading, error, listener := None, false, None, None;
      registered := {};
    }

    /** `createRideRequest`. Without a rider it only sets the error. A failed
        store call ends loading with the failure's message. A successful one
        registers a listener on the new request, then drops the previous one
        (once in the callback and once more in the effect cleanup); the
        request itself arrives with the first snapshot, so loading stays on. */
    method Create(pickup: Pickup, now: Timestamp, fault: Option<Thrown>) returns (r: Option<RideId>)
      requires Valid()
      modifies this, backend
      ensures Valid()
      ensures currentRequest == old(currentRequest)
      ensures !Truthy(riderId) ==>
                && r == None && error == Some(NotAuthenticated) && loading == old(loading)
                && listener == old(listener)
                && backend.rides == old(backend.rides) && backend.listeners == old(backend.listeners)
                && backend.subLog == old(backend.subLog)
      ensures Truthy(riderId) && (fault.Some? || riderId.value !in old(backend.users)) ==>
                && r == None && !loading && listener == old(listener)
                && error == Some(MessageOr(if fault.Some? then fault.value else Error(RiderNotFound), CreateFailed))
                && backend.rides == old(backend.rides) && backend.listeners == old(backend.listeners)
                && backend.subLog == old(backend.subLog)
      ensures r.Some? <==> Truthy(riderId) && fault.None? && riderId.value in old(backend.users)
      ensures r.Some? ==>
                && r.value !in old(backend.rides)
                && backend.rides == old(backend.rides)[r.value := NewRideDoc(riderId.value, old(backend.users)[riderId.value], pickup, now)]
                && loading && error == None
                && listener == Some(old(backend.nextHandle))
                && backend.listeners ==
                     (if old(listener).Some? then old(backend.listeners) - {old(listener).value} else old(backend.listeners))
                     [old(backend.nextHandle) := RideTarget(r.value)]
                && backend.subLog == old(backend.subLog) + [Subscribed(old(backend.nextHandle), RideTarget(r.value))]
                     + (if old(listener).Some? then [Unsubscribed(old(listener).value), Unsubscribed(old(listener).value)] else [])
      ensures backend.nextRide == old(backend.nextRide) + (if r.Some? then 1 else 0)
      ensures backend.nextHandle == old(backend.nextHandle) + (if r.Some? then 1 else 0)
      ensures backend.users == old(backend.users) && backend.operators == old(backend.operators)
    {
      if !Truthy(riderId) {
        error := Some(NotAuthenticated);
        return None;
      }
      loading, error := true, None;
      var created := backend.CreateRideRequest(riderId.value, pickup, now, fault);
      if created.Failure? {
        loading, error := false, Some(MessageOr(created.error, CreateFailed));
        return None;
      }
      Follow(created.value);
      r := Some(created.value);
    }

    /** The listener switch of a successful creation: a listener on `id` is
        registered, then the previous one is dropped, once in the callback and
        once more in the cleanup of the effect that held it. */
    method Follow(id: RideId)
      requires Valid()
      modifies this`listener, this`registered, backend
      ensures Valid()
      ensures listener == Some(old(backend.nextHandle))
      ensures backend.listeners ==
                (if old(listener).Some? then old(backend.listeners) - {old(listener).value} else old(backend.listeners))
                [old(backend.nextHandle) := RideTarget(id)]
      ensures backend.subLog == old(backend.subLog) + [Subscribed(old(backend.nextHandle), RideTarget(id))]
                + (if old(listener).Some? then [Unsubscribed(old(listener).value), Unsubscribed(old(listener).value)] else [])
      ensures backend.rides == old(backend.rides) && backend.users == old(backend.users)
      ensures backend.operators == old(backend.operators)
      ensures backend.nextRide == old(backend.nextRide) && backend.nextHandle == old(backend.nextHandle) + 1
    {
      var h := backend.Listen(RideTarget(id));
      registered := registered + {h};
      var previous := listener;
      if previous.Some? {
        backend.Unsubscribe(previous.value);
      }
      listener := Some(h);
      // The effect that held the previous listener runs its cleanup.
      if previous.Some? {
        backend.Unsubscribe(previous.value);
      }
    }

    /** The listener's callback: the delivered value (null when the request
        is missing or the listener fails) replaces `currentRequest`, and
        loading and error are cleared. */
    method OnSnapshot(now: Timestamp, fault: Option<Thrown>)
      requires Valid() && listener.Some?
      modifies this`currentRequest, this`loading, this`error
      ensures Valid()
      ensures currentRequest == backend.RideSnapshot(listener.value, now, fault)
      ensures !loading && error == None
    {
      currentRequest := backend.RideSnapshot(listener.value, now, fault);
      loading, error := false, None;
    }

    /** `cancelRideRequest`. Without a current request nothing happens. The
        current status is not checked: the request is set to cancelled
        whatever it is. On success the listener is dropped and the request
        cleared; on failure both are kept and the error is set. */
    method Cancel(now: Timestamp, fault: Option<Thrown>)
      requires Valid()
      modifies this`currentRequest, this`loading, this`error, this`listener, backend
      ensures Valid()
      ensures old(currentRequest).None? ==>
                && currentRequest == None && loading == old(loading) && error == old(error)
                && listener == old(listener)
                && backend.rides == old(backend.rides) && backend.listeners == old(backend.listeners)
                && backend.subLog == old(backend.subLog)
      ensures old(currentRequest).Some? ==> !loading
      ensures old(currentRequest).Some? && fault.None? && old(currentRequest).value.id in old(backend.rides) ==>
                var id := old(currentRequest).value.id;
                && backend.rides == old(backend.rides)[id := ApplyUpdate(old(backend.rides)[id], StatusUpdate(Cancelled, None, now))]
                && currentRequest == None && error == None && listener == None
                && backend.listeners == (if old(listener).Some? then old(backend.listeners) - {old(listener).value} else old(backend.listeners))
                && backend.subLog == old(backend.subLog)
                     + (if old(listener).Some? then [Unsubscribed(old(listener).value), Unsubscribed(old(listener).value)] else [])
      ensures old(currentRequest).Some? && (fault.Some? || old(currentRequest).value.id !in old(backend.rides)) ==>
                && backend.rides == old(backend.rides)
                && currentRequest == old(currentRequest) && listener == old(listener)
                && error == Some(MessageOr(if fault.Some? then fault.value else Error(DocumentNotFound), CancelFailed))
                && backend.listeners == old(backend.listeners) && backend.subLog == old(backend.subLog)
      ensures backend.users == old(backend.users) && backend.operators == old(backend.operators)
      ensures backend.nextRide == old(backend.nextRide) && backend.nextHandle == old(backend.nextHandle)
    {
      if currentRequest.None? {
        return;
      }
      loading, error := true, None;
      var updated := backend.UpdateRideRequestStatus(currentRequest.value.id, Cancelled, None, now, fault);
      if updated.Failure? {
        loading, error := false, Some(MessageOr(updated.error, CancelFailed));
        return;
      }
      Release();
      currentRequest, loading := None, false;
    }

    /** The listener drop of a successful cancel: the held listener is
        unsubscribed in the callback and once more in the cleanup of the
        effect that held it, and none is held afterwards. */
    method Release()
      requires Valid()
      modifies this`listener, backend
      ensures Valid() && listener == None
      ensures backend.listeners == (if old(listener).Some? then old(backend.listeners) - {old(listener).value} else old(backend.listeners))
      ensures backend.subLog == old(backend.subLog)
                + (if old(listener).Some? then [Unsubscribed(old(listener).value), Unsubscribed(old(listener).value)] else [])
      ensures backend.rides == old(backend.rides) && backend.users == old(backend.users)
      ensures backend.operators == old(backend.operators)
      ensures backend.nextRide == old(backend.nextRide) && backend.nextHandle == old(backend.nextHandle)
    {
      var previous := listener;
      if previous.Some? {
        backend.Unsubscribe(previous.value);
        listener := None;
        // The effect that held the listener runs its cleanup.
        backend.Unsubscribe(previous.value);
      }
    }

    /** `getRiderRequests`: [] without a rider, otherwise the store query. */
    function RiderRequests(now: Timestamp, fault: Option<Thrown>): (rs: seq<RideRequest>)
      reads this, backend
      requires Valid()
      ensures !Truthy(riderId) ==> rs == []
      ensures Truthy(riderId) ==> rs == backend.RiderRequests(riderId.value, now, fault)
    {
      if !Truthy(riderId) then [] else backend.RiderRequests(riderId.value, now, fault)
    }

    /** The unmount cleanup: drops the held listener, after which no listener
        this hook registered is live. */
    method Unmount()
      requires Valid()
      modifies backend
      ensures backend.Valid()
      ensures forall h :: h in registered ==> h !in backend.listeners
      ensures backend.listeners == (if listener.Some? then old(backend.listeners) - {listener.value} else old(backend.listeners))
      ensures backend.subLog == old(backend.subLog) + (if listener.Some? then [Unsubscribed(listener.value)] else [])
      ensures backend.rides == old(backend.rides) && backend.users == old(backend.users)
      ensures backend.operators == old(backend.operators)
      ensures backend.nextRide == old(backend.nextRide) && backend.nextHandle == old(backend.nextHandle)
    {
      if listener.Some? {
        backend.Unsubscribe(listener.value);
      }
    }
  }
}
