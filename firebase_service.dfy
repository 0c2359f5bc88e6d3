/** src/services/FirebaseService.ts: the ride-request operations over the
    shared store. The store is a class holding one map per collection and the
    registry of live snapshot listeners; a transport or backend failure is the
    argument `fault` (`Some(e)`: the call rejects with `e`). */
module FirebaseService {
  import opened Common
  import opened RideRecords
  import opened RideQueries

  /** The handle a snapshot listener is removed by. */
  type Handle = nat

  /** What a listener watches: a ride request, an operator's presence record,
      or the result of a `where` query over `rideRequests`. */
  datatype Target = RideTarget(id: RideId) | OperatorTarget(uid: string) | QueryTarget(ws: seq<Where>)

  /** The order in which listeners were added and removed. */
  datatype SubEvent = Subscribed(h: Handle, target: Target) | Unsubscribed(h: Handle)

  const RiderNotFound := "Rider document not found"

  /** The store's rejection of an `update` on a missing document. */
  const DocumentNotFound := "[firestore/not-found] Some requested document was not found."

  class Backend {
    var rides: map<RideId, RideDoc>
    var users: map<string, UserDoc>
    var operators: map<string, PresenceDoc>
    var listeners: map<Handle, Target>
    var nextRide: nat
    var nextHandle: nat
    ghost var subLog: seq<SubEvent>

    /** Ids and handles are below their counters, and no ride request holds an
        operator without the info and time written with it. */
    ghost predicate Valid()
      reads this
    {
      && (forall id :: id in rides ==> id < nextRide && OperatorStamped(rides[id]))
      && (forall h :: h in listeners ==> h < nextHandle)
    }

    constructor (profiles: map<string, UserDoc>)
      ensures Valid()
      ensures rides == map[] && users == profiles && operators == map[] && listeners == map[]
      ensures subLog == []
    {
      rides, users, operators, listeners := map[], profiles, map[], map[];
      nextRide, nextHandle := 0, 0;
      subLog := [];
    }

    /** `createRideRequest`: reads `users/{riderId}`, fails when it is missing,
        and otherwise adds the new pending request and returns its id. */
    method CreateRideRequest(riderId: string, pickup: Pickup, now: Timestamp, fault: Option<Thrown>)
      returns (r: Result<RideId, Thrown>)
      requires Valid()
      modifies this
      ensures Valid()
      ensures fault.Some? ==> r == Failure(fault.value)
      ensures fault.None? && riderId !in users ==> r == Failure(Error(RiderNotFound))
      ensures r.Success? <==> fault.None? && riderId in users
      ensures r.Success? ==>
                (r.value !in old(rides)
                 && rides == old(rides)[r.value := NewRideDoc(riderId, users[riderId], pickup, now)])
      ensures r.Failure? ==> rides == old(rides)
      ensures nextRide == old(nextRide) + (if r.Success? then 1 else 0)
      ensures users == old(users) && operators == old(operators)
      ensures listeners == old(listeners) && nextHandle == old(nextHandle) && subLog == old(subLog)
    {
      if fault.Some? {
        return Failure(fault.value);
      }
      if riderId !in users {
        return Failure(Error(RiderNotFound));
      }
      var id := nextRide;
      rides := rides[id := NewRideDoc(riderId, users[riderId], pickup, now)];
      nextRide := nextRide + 1;
      r := Success(id);
    }

    /** `getRideRequest`: the decoded document, or null when it is missing or
        the read fails. */
    function GetRideRequest(id: RideId, now: Timestamp, fault: Option<Thrown>): (r: Option<RideRequest>)
      reads this
      ensures r.Some? <==> fault.None? && id in rides
      ensures r.Some? ==> r.value == Decode(id, rides[id], now)
    {
      if fault.None? && id in rides then Some(Decode(id, rides[id], now)) else None
    }

    /** Firestore `update` of `rideRequests/{id}`; it rejects when the
        document does not exist. */
    method UpdateRide(id: RideId, u: RideUpdate, fault: Option<Thrown>) returns (r: Result<(), Thrown>)
      requires Valid() && StampedUpdate(u)
      modifies this
      ensures Valid()
      ensures fault.Some? ==> r == Failure(fault.value)
      ensures fault.None? && id !in rides ==> r == Failure(Error(DocumentNotFound))
      ensures r.Success? <==> fault.None? && id in rides
      ensures r.Success? ==> id in old(rides) && rides == old(rides)[id := ApplyUpdate(old(rides)[id], u)]
      ensures r.Failure? ==> rides == old(rides)
      ensures users == old(users) && operators == old(operators) && nextRide == old(nextRide)
      ensures listeners == old(listeners) && nextHandle == old(nextHandle) && subLog == old(subLog)
    {
      if fault.Some? {
        return Failure(fault.value);
      }
      if id !in rides {
        return Failure(Error(DocumentNotFound));
      }
      rides := rides[id := ApplyUpdate(rides[id], u)];
      r := Success(());
    }

    /** `updateRideRequestStatus`: writes the update `StatusUpdate` builds. */
    method UpdateRideRequestStatus(id: RideId, status: Status, op: Option<OperatorArg>, now: Timestamp, fault: Option<Thrown>)
      returns (r: Result<(), Thrown>)
      requires Valid()
      modifies this
      ensures Valid()
      ensures fault.Some? ==> r == Failure(fault.value)
      ensures fault.None? && id !in rides ==> r == Failure(Error(DocumentNotFound))
      ensures r.Success? <==> fault.None? && id in rides
      ensures r.Success? ==>
                (id in old(rides) && rides == old(rides)[id := ApplyUpdate(old(rides)[id], StatusUpdate(status, op, now))])
      ensures r.Failure? ==> rides == old(rides)
      ensures users == old(users) && operators == old(operators) && nextRide == old(nextRide)
      ensures listeners == old(listeners) && nextHandle == old(nextHandle) && subLog == old(subLog)
    {
      r := UpdateRide(id, StatusUpdate(status, op, now), fault);
    }

    /** `onSnapshot`: registers a listener and returns its unsubscribe handle. */
    method Listen(target: Target) returns (h: Handle)
      requires Valid()
      modifies this
      ensures Valid()
      ensures h == old(nextHandle) && nextHandle == h + 1
      ensures h !in old(listeners) && listeners == old(listeners)[h := target]
      ensures subLog == old(subLog) + [Subscribed(h, target)]
      ensures rides == old(rides) && users == old(users) && operators == old(operators) && nextRide == old(nextRide)
    {
      h := nextHandle;
      listeners := listeners[h := target];
      nextHandle := nextHandle + 1;
      subLog := subLog + [Subscribed(h, target)];
    }

    /** Calling an unsubscribe handle; calling it again changes nothing more. */
    method Unsubscribe(h: Handle)
      requires Valid()
      modifies this
      ensures Valid()
      ensures listeners == old(listeners) - {h}
      ensures subLog == old(subLog) + [Unsubscribed(h)]
      ensures rides == old(rides) && users == old(users) && operators == old(operators)
      ensures nextRide == old(nextRide) && nextHandle == old(nextHandle)
    {
      listeners := listeners - {h};
      subLog := subLog + [Unsubscribed(h)];
    }

    /** What a `listenToRideRequest` callback receives: the decoded document,
        or null when it does not exist or the listener reports an error. */
    function RideSnapshot(h: Handle, now: Timestamp, fault: Option<Thrown>): (r: Option<RideRequest>)
      reads this
      requires h in listeners && listeners[h].RideTarget?
      ensures r.Some? <==> fault.None? && listeners[h].id in rides
      ensures r.Some? ==> r.value == Decode(listeners[h].id, rides[listeners[h].id], now)
    {
      GetRideRequest(listeners[h].id, now, fault)
    }

    /** The data of an `operators/{uid}` snapshot (`undefined` when the
        document does not exist). */
    function PresenceSnapshot(h: Handle): (d: Option<PresenceDoc>)
      reads this
      requires h in listeners && listeners[h].OperatorTarget?
      ensures d.Some? <==> listeners[h].uid in operators
      ensures d.Some? ==> d.value == operators[listeners[h].uid]
    {
      var uid := listeners[h].uid;
      if uid in operators then Some(operators[uid]) else None
    }

    /** The documents a `where` query snapshot lists: every matching
      document, in id order. */
    function QuerySnapshot(h: Handle): (es: seq<Entry>)
      reads this
      requires h in listeners && listeners[h].QueryTarget?
      ensures forall i :: 0 <= i < |es| ==>
                es[i].id in rides && es[i].doc == rides[es[i].id] && MatchesAll(listeners[h].ws, es[i].doc)
      ensures forall i, j :: 0 <= i < j < |es| ==> es[i].id < es[j].id
      ensures Valid() ==>
                forall id :: id in rides && MatchesAll(listeners[h].ws, rides[id]) ==>
                  exists i :: 0 <= i < |es| && es[i].id == id
    {
      var ids := Select(rides, nextRide, listeners[h].ws);
      var es := Entries(rides, ids);
      assert Valid() ==>
               forall id :: id in rides && MatchesAll(listeners[h].ws, rides[id]) ==>
                 exists i :: 0 <= i < |es| && es[i].id == id
      by {
        if Valid() {
          forall id | id in rides && MatchesAll(listeners[h].ws, rides[id])
            ensures exists i :: 0 <= i < |es| && es[i].id == id
          {
            var i :| 0 <= i < |ids| && ids[i] == id;
            assert es[i].id == id;
          }
        }
      }
      es
    }

    /** `set(..., { merge: true })` of the presence fields on `operators/{uid}`. */
    method MergeOperatorPresence(uid: string, at: LatLng, now: Timestamp, fault: Option<Thrown>)
      returns (r: Result<(), Thrown>)
      requires Valid()
      modifies this
      ensures Valid()
      ensures r.Success? <==> fault.None?
      ensures fault.Some? ==> r == Failure(fault.value) && operators == old(operators)
      ensures fault.None? ==>
                operators == old(operators)[uid := MergePresence(if uid in old(operators) then Some(old(operators)[uid]) else None, at, now)]
      ensures rides == old(rides) && users == old(users) && nextRide == old(nextRide)
      ensures listeners == old(listeners) && nextHandle == old(nextHandle) && subLog == old(subLog)
    {
      if fault.Some? {
        return Failure(fault.value);
      }
      operators := operators[uid := MergePresence(if uid in operators then Some(operators[uid]) else None, at, now)];
      r := Success(());
    }

    /** `getPendingRideRequests`: exactly the pending requests that carry a
        `requestedAt`, each once, newest first; [] when the query fails. */
    function PendingRideRequests(now: Timestamp, fault: Option<Thrown>): (rs: seq<RideRequest>)
      reads this
      requires Valid()
      ensures fault.Some? ==> rs == []
      ensures forall i :: 0 <= i < |rs| ==>
                (rs[i].id in rides && rides[rs[i].id].requestedAt.Some? && rs[i].status == "pending"
                 && rs[i] == Decode(rs[i].id, rides[rs[i].id], now))
      ensures fault.None? ==>
                forall id :: id in rides && rides[id].status == "pending" && rides[id].requestedAt.Some? ==>
                  exists i :: 0 <= i < |rs| && rs[i].id == id
      ensures forall i, j :: 0 <= i < j < |rs| ==> Before(rides, rs[i].id, rs[j].id)
      ensures forall i, j :: 0 <= i < j < |rs| ==> rs[i].requestedAt >= rs[j].requestedAt
    {
      if fault.Some? then []
      else
        var ids := PendingIds(rides, nextRide);
        DecodedNewestFirst(rides, ids, now);
        DecodeAll(rides, ids, now)
    }

    /** `getRiderRequests`: the rider's ten newest requests that carry a
        `requestedAt` (all of them when there are fewer), each once, newest
        first; [] when the query fails. */
    function RiderRequests(rider: string, now: Timestamp, fault: Option<Thrown>): (rs: seq<RideRequest>)
      reads this
      requires Valid()
      ensures fault.Some? ==> rs == []
      ensures |rs| <= RiderLimit
      ensures forall i :: 0 <= i < |rs| ==>
                (rs[i].id in rides && rides[rs[i].id].requestedAt.Some? && rs[i].riderId == rider
                 && rs[i] == Decode(rs[i].id, rides[rs[i].id], now))
      ensures forall i, j :: 0 <= i < j < |rs| ==> Before(rides, rs[i].id, rs[j].id)
      ensures forall i, j :: 0 <= i < j < |rs| ==> rs[i].requestedAt >= rs[j].requestedAt
      ensures fault.None? ==>
                forall id :: id in rides && rides[id].riderId == rider && rides[id].requestedAt.Some?
                             && (forall i :: 0 <= i < |rs| ==> rs[i].id != id) ==>
                  |rs| == RiderLimit && forall i :: 0 <= i < |rs| ==> Before(rides, rs[i].id, id)
    {
      if fault.Some? then []
      else
        var ids := RiderIds(rides, nextRide, rider);
        DecodedNewestFirst(rides, ids, now);
        RiderDecodedComplete(rides, nextRide, rider, now);
        DecodeAll(rides, ids, now)
    }
  }
}
