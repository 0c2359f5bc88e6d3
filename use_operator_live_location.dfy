/** src/hooks/useOperatorLiveLocation.ts: the rider's view of an operator's
    position, a register `loc` fed by a snapshot listener on the operator's
    presence record. The effect re-runs when `operatorId` changes: the
    previous subscription's cleanup first, then the new body. */
module UseOperatorLiveLocation {
  import opened Common
  import opened RideRecords
  import opened FirebaseService

  class OperatorLiveLocation {
    const backend: Backend
    /** The `loc` state. */
    var loc: Option<LatLng>
    /** The subscription the latest effect run returned. */
    var subscription: Option<Handle>
    /** Every listener this hook has registered. */
    ghost var registered: set<Handle>

    /** Of the listeners this hook registered, only the held one is live,
        and it follows an operator's presence record. */
    ghost predicate Valid()
      reads this, backend
    {
      && backend.Valid()
      && (forall h :: h in registered ==> h < backend.nextHandle)
      && (forall h :: h in registered && h in backend.listeners ==> subscription == Some(h))
      && (subscription.Some? ==>
            subscription.value in registered && subscription.value in backend.listeners
            && backend.listeners[subscription.value].OperatorTarget?)
    }

    /** `loc` starts as null. */
    constructor (backend: Backend)
      requires backend.Valid()
      ensures Valid()
      ensures this.backend == backend && loc == None && subscription == None && registered == {}
    {
      this.backend := backend;
      loc, subscription := None, None;
      registered := {};
    }

    /** The effect for `operatorId`: the previous subscription is dropped
        before a new one is made, a new one is made only for a non-empty id,
        and `loc` keeps its value. */
    method SetOperator(operatorId: Option<string>)
      requires Valid()
      modifies this, backend
      ensures Valid()
      ensures loc == old(loc)
      ensures !Truthy(operatorId) ==>
                && subscription == None
                && backend.listeners == (if old(subscription).Some? then old(backend.listeners) - {old(subscription).value} else old(backend.listeners))
                && backend.subLog == old(backend.subLog) + (if old(subscription).Some? then [Unsubscribed(old(subscription).value)] else [])
      ensures Truthy(operatorId) ==>
                && subscription == Some(old(backend.nextHandle))
                && backend.listeners ==
                     (if old(subscription).Some? then old(backend.listeners) - {old(subscription).value} else old(backend.listeners))
                     [old(backend.nextHandle) := OperatorTarget(operatorId.value)]
                && backend.subLog == old(backend.subLog)
                     + (if old(subscription).Some? then [Unsubscribed(old(subscription).value)] else [])
                     + [Subscribed(old(backend.nextHandle), OperatorTarget(operatorId.value))]
      ensures backend.nextHandle == old(backend.nextHandle) + (if Truthy(operatorId) then 1 else 0)
      ensures backend.rides == old(backend.rides) && backend.users == old(backend.users)
      ensures backend.operators == old(backend.operators) && backend.nextRide == old(backend.nextRide)
    {
      if subscription.Some? {
        backend.Unsubscribe(subscription.value);
        subscription := None;
      }
      if !Truthy(operatorId) {
        return;
      }
      var h := backend.Listen(OperatorTarget(operatorId.value));
      registered := registered + {h};
      subscription := Some(h);
    }

    /** A snapshot: `loc` becomes the record's location when the record
        exists and has one, and is otherwise left as it was. */
    method OnSnapshot()
      requires Valid() && subscription.Some?
      modifies this`loc
      ensures Valid()
      ensures var d := backend.PresenceSnapshot(subscription.value);
              loc == if d.Some? && d.value.location.Some? then d.value.location else old(loc)
    {
      var d := backend.PresenceSnapshot(subscription.value);
      if d.Some? && d.value.location.Some? {
        loc := d.value.location;
      }
    }

    /** The unmount cleanup: afterwards no listener of this hook is live. */
    method Unmount()
      requires Valid()
      modifies backend
      ensures backend.Valid()
      ensures forall h :: h in registered ==> h !in backend.listeners
      ensures backend.listeners == (if subscription.Some? then old(backend.listeners) - {subscription.value} else old(backend.listeners))
      ensures backend.subLog == old(backend.subLog) + (if subscription.Some? then [Unsubscribed(subscription.value)] else [])
      ensures backend.rides == old(backend.rides) && backend.users == old(backend.users)
      ensures backend.operators == old(backend.operators)
      ensures backend.nextRide == old(backend.nextRide) && backend.nextHandle == old(backend.nextHandle)
    {
      if subscription.Some? {
        backend.Unsubscribe(subscription.value);
      }
    }
  }
}
