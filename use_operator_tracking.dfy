/** src/hooks/useOperatorTracking.ts: the operator's location publisher. While
    the operator is signed in and tracking is enabled it holds one position
    watch; every fix updates `last` and is merge-written into the operator's
    presence record. The React effect is a method run whenever its inputs
    (`userId`, `enabled`) change: it first runs the previous run's cleanup,
    if that run returned one, and then its own body. */
module UseOperatorTracking {
  import opened Common
  import opened RideRecords
  import opened LocationService
  import opened FirebaseService

  /** The watch options the publisher asks for. */
  const TrackingRequest := WatchRequest(Some(true), None, None, Some(10), Some(5000), Some(true))

  /** The publisher's watch: high accuracy, ten metres, five seconds, and the
      platform's location manager rather than the fused provider. */
  lemma TrackingOptions()
    ensures var o := WatchDefaults(TrackingRequest);
            && o.enableHighAccuracy && o.distanceFilter == 10 && o.interval == 5000 && o.forceLocationManager
            && o.timeout == 15000 && o.maximumAge == 0 && o.fastestInterval == 3000
  {
  }

  class OperatorTracker {
    const device: Device
    const backend: Backend
    /** The `watchId` ref. */
    var watchId: Option<WatchId>
    /** The `last` state. */
    var last: Option<LatLng>
    /** Whether the latest effect run returned a cleanup (only the enabled
        branch does). */
    var armed: bool
    /** The operator the running watch's callback publishes for. */
    var publisher: string
    /** Every watch this hook has started. */
    ghost var started: set<WatchId>

    /** Of the watches this hook started, at most one is live: the one the
        ref holds. */
    ghost predicate Valid()
      reads this, device, backend
    {
      && device.Valid() && backend.Valid()
      && (forall w :: w in started ==> w < device.nextWatch)
      && (forall w :: w in started && w in device.watches ==> watchId == Some(w))
      && (watchId.Some? ==> watchId.value in started)
      && (!armed ==> watchId.None?)
    }

    constructor (device: Device, backend: Backend)
      requires device.Valid() && backend.Valid()
      ensures Valid()
      ensures this.device == device && this.backend == backend
      ensures watchId == None && last == None && !armed && started == {}
    {
      this.device, this.backend := device, backend;
      watchId, last, armed, publisher := None, None, false, "";
      started := {};
    }

    /** Whether one of this hook's watches is running. */
    ghost predicate Watching()
      reads this, device
    {
      watchId.Some? && watchId.value in device.watches
    }

    /** The effect for inputs `userId` and `enabled`. Without a user or with
        tracking off, every watch of this hook is stopped and the ref is
        cleared. Otherwise one watch is started with `TrackingRequest`; when
        that fails (permission denied) the failure is swallowed and the ref
        keeps whatever it held. */
    method Effect(userId: Option<string>, enabled: bool)
      requires Valid()
      modifies this`watchId, this`armed, this`publisher, this`started, device`prompts, device`watches, device`nextWatch
      ensures Valid()
      ensures last == old(last) && backend.operators == old(backend.operators)
      ensures !Truthy(userId) || !enabled ==>
                && watchId == None && !armed && !Watching()
                && device.watches == (if old(watchId).Some? then old(device.watches) - {old(watchId).value} else old(device.watches))
                && device.prompts == old(device.prompts)
      ensures Truthy(userId) && enabled ==>
                && armed
                && device.prompts == PromptsAfterRequest(device.platform, old(device.prompts))
                && var cleared := if old(armed) && old(watchId).Some? then old(device.watches) - {old(watchId).value} else old(device.watches);
                   (if PermissionGranted(device.platform, NextPrompt(old(device.prompts))) then
                      && watchId == Some(old(device.nextWatch)) && publisher == userId.value
                      && device.watches == cleared[old(device.nextWatch) := WatchDefaults(TrackingRequest)]
                    else
                      watchId == old(watchId) && device.watches == cleared && !Watching())
    {
      // The previous run's cleanup: stops the watch but leaves the ref.
      Cleanup();
      armed := false;
      if !Truthy(userId) || !enabled {
        if watchId.Some? {
          device.ClearWatch(watchId.value);
        }
        watchId := None;
        return;
      }
      var begun, errors := device.WatchPosition(TrackingRequest, true);
      if begun.Success? {
        watchId := Some(begun.value);
        started := started + {begun.value};
        publisher := userId.value;
      }
      armed := true;
    }

    /** The watch's success callback for a fix: `last` becomes its
        coordinates and the presence record is merge-written with them. A
        failed write leaves the record as it was. */
    method OnFix(fix: LocationData, now: Timestamp, fault: Option<Thrown>)
      requires Valid() && Watching()
      modifies this`last, backend
      ensures Valid()
      ensures last == Some(LatLng(fix.latitude, fix.longitude))
      ensures fault.None? ==>
                backend.operators == old(backend.operators)[publisher :=
                  MergePresence(if publisher in old(backend.operators) then Some(old(backend.operators)[publisher]) else None,
                                LatLng(fix.latitude, fix.longitude), now)]
      ensures fault.Some? ==> backend.operators == old(backend.operators)
      ensures backend.rides == old(backend.rides) && backend.users == old(backend.users)
      ensures backend.listeners == old(backend.listeners) && backend.subLog == old(backend.subLog)
      ensures backend.nextRide == old(backend.nextRide) && backend.nextHandle == old(backend.nextHandle)
    {
      var at := LatLng(fix.latitude, fix.longitude);
      last := Some(at);
      var written := backend.MergeOperatorPresence(publisher, at, now, fault);
    }

    /** The watch's error callback only logs. */
    method OnWatchError(e: GeoError)
      requires Valid()
      ensures Valid()
      ensures last == old(last) && watchId == old(watchId) && backend.operators == old(backend.operators)
    {
    }

    /** The cleanup the latest effect run returned, which also runs on
        unmount: it stops the watch the ref holds but leaves the ref, and
        afterwards none of this hook's watches runs. */
    method Cleanup()
      requires Valid()
      modifies device`watches
      ensures device.Valid()
      ensures forall w :: w in started ==> w !in device.watches
      ensures device.watches == (if armed && watchId.Some? then old(device.watches) - {watchId.value} else old(device.watches))
    {
      if armed && watchId.Some? {
        device.ClearWatch(watchId.value);
      }
    }
  }
}
