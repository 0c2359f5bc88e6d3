/** The documents of the shared store (`users`, `rideRequests`, `operators`)
    and the pure parts of src/services/FirebaseService.ts: the record built on
    create, the field-level update built for a status change, and the decoding
    of a stored document into a `RideRequest`. */
module RideRecords {
  import opened Common

  /** Document ids of `rideRequests`, handed out by the store. */
  type RideId = nat

  /** Milliseconds; server-assigned times enter the model as a `now` argument. */
  type Timestamp = int

  /** The six statuses the `RideRequest` type admits. The stored field is a
      string, so documents may also hold names outside this list. */
  datatype Status = Pending | Accepted | OnWay | Arrived | Completed | Cancelled

  function StatusName(s: Status): string {
    match s
    case Pending => "pending"
    case Accepted => "accepted"
    case OnWay => "on_way"
    case Arrived => "arrived"
    case Completed => "completed"
    case Cancelled => "cancelled"
  }

  /** The inverse of `StatusName`: which status a stored string names, if any. */
  function ParseStatus(name: string): (s: Option<Status>)
    ensures forall st: Status :: s == Some(st) <==> StatusName(st) == name
  {
    if name == "pending" then Some(Pending)
    else if name == "accepted" then Some(Accepted)
    else if name == "on_way" then Some(OnWay)
    else if name == "arrived" then Some(Arrived)
    else if name == "completed" then Some(Completed)
    else if name == "cancelled" then Some(Cancelled)
    else None
  }

  /** `riderInfo` / `operatorInfo`: two optional display fields. */
  datatype Info = Info(displayName: Option<string>, phoneNumber: Option<string>)

  /** The pickup point; `address` is optional. */
  datatype Pickup = Pickup(latitude: real, longitude: real, address: Option<string>)

  /** A stored `rideRequests` document. The fields the core always writes on
      create are plain; the rest may be missing. */
  datatype RideDoc = RideDoc(
    riderId: string,
    riderInfo: Info,
    location: Pickup,
    status: string,
    operatorId: Option<string>,
    operatorInfo: Option<Info>,
    requestedAt: Option<Timestamp>,
    acceptedAt: Option<Timestamp>,
    completedAt: Option<Timestamp>,
    estimatedArrival: Option<Timestamp>)

  /** A decoded `RideRequest`, as handed to the UI: it carries its document id
      and always has a `requestedAt`. */
  datatype RideRequest = RideRequest(
    id: RideId,
    riderId: string,
    riderInfo: Info,
    location: Pickup,
    status: string,
    operatorId: Option<string>,
    operatorInfo: Option<Info>,
    requestedAt: Timestamp,
    acceptedAt: Option<Timestamp>,
    completedAt: Option<Timestamp>,
    estimatedArrival: Option<Timestamp>)

  /** A stored `users` document (every field may be missing). */
  datatype UserDoc = UserDoc(
    phoneNumber: Option<string>,
    displayName: Option<string>,
    userType: Option<string>,
    isActive: Option<bool>,
    hasSelectedRole: Option<bool>,
    createdAt: Option<Timestamp>)

  /** The `User` value `getCurrentUser` returns. */
  datatype User = User(
    uid: string,
    phoneNumber: string,
    displayName: Option<string>,
    userType: string,
    createdAt: Timestamp,
    isActive: bool,
    hasSelectedRole: bool)

  /** A coordinate pair as published in an operator's presence record. */
  datatype LatLng = LatLng(latitude: real, longitude: real)

  /** A stored `operators` document: the three fields the publisher writes and
      whatever other fields the record holds. */
  datatype PresenceDoc = PresenceDoc(
    available: Option<bool>,
    location: Option<LatLng>,
    updatedAt: Option<Timestamp>,
    others: map<string, string>)

  // ---------------------------------------------------------------- create

  predicate NoEmptyFields(info: Info) {
    info.displayName != Some("") && info.phoneNumber != Some("")
  }

  /** `riderInfo` on create: a profile field is copied only when it is
      present and non-empty. */
  function RiderInfoFrom(profile: UserDoc): (info: Info)
    ensures info.displayName.Some? <==> Truthy(profile.displayName)
    ensures info.phoneNumber.Some? <==> Truthy(profile.phoneNumber)
    ensures info.displayName.Some? ==> info.displayName == profile.displayName
    ensures info.phoneNumber.Some? ==> info.phoneNumber == profile.phoneNumber
    ensures NoEmptyFields(info)
  {
    Info(if Truthy(profile.displayName) then profile.displayName else None,
         if Truthy(profile.phoneNumber) then profile.phoneNumber else None)
  }

  /** The stored `location`: the coordinates exactly, and `address` only when
      a non-empty one was given. */
  function StoredPickup(p: Pickup): (q: Pickup)
    ensures q.latitude == p.latitude && q.longitude == p.longitude
    ensures q.address.Some? <==> Truthy(p.address)
    ensures q.address.Some? ==> q.address == p.address
  {
    Pickup(p.latitude, p.longitude, if Truthy(p.address) then p.address else None)
  }

  /** A document `rideRequests/{id}` never holds an `operatorId` without the
      `operatorInfo` and `acceptedAt` written beside it. */
  predicate OperatorStamped(d: RideDoc) {
    d.operatorId.Some? ==> d.operatorInfo.Some? && d.acceptedAt.Some?
  }

  /** The document `createRideRequest` adds. */
  function NewRideDoc(riderId: string, profile: UserDoc, pickup: Pickup, now: Timestamp): (d: RideDoc)
    ensures d.riderId == riderId && d.riderInfo == RiderInfoFrom(profile)
    ensures d.location == StoredPickup(pickup)
    ensures ParseStatus(d.status) == Some(Pending)
    ensures d.operatorId.None? && d.operatorInfo.None?
    ensures d.requestedAt == Some(now)
    ensures d.acceptedAt.None? && d.completedAt.None? && d.estimatedArrival.None?
    ensures OperatorStamped(d)
  {
    RideDoc(riderId, RiderInfoFrom(profile), StoredPickup(pickup), StatusName(Pending),
            None, None, Some(now), None, None, None)
  }

  // ---------------------------------------------------------------- decode

  /** `{ id: doc.id, ...data, requestedAt: data.requestedAt?.toDate() || new Date(), ... }` */
  function Decode(id: RideId, d: RideDoc, now: Timestamp): (r: RideRequest)
    ensures r.id == id
    ensures r.requestedAt == if d.requestedAt.Some? then d.requestedAt.value else now
    ensures Encode(r) == d.(requestedAt := Some(r.requestedAt))
  {
    RideRequest(id, d.riderId, d.riderInfo, d.location, d.status, d.operatorId, d.operatorInfo,
                d.requestedAt.GetOr(now), d.acceptedAt, d.completedAt, d.estimatedArrival)
  }

  /** The stored document a decoded request stands for (its fields without
      the id). */
  function Encode(r: RideRequest): (d: RideDoc)
    ensures d.requestedAt == Some(r.requestedAt)
  {
    RideDoc(r.riderId, r.riderInfo, r.location, r.status, r.operatorId, r.operatorInfo,
            Some(r.requestedAt), r.acceptedAt, r.completedAt, r.estimatedArrival)
  }

  /** Decoding inverts `Encode` whatever the clock says: the only default
      decoding supplies is `requestedAt`. */
  lemma DecodeEncode(r: RideRequest, now: Timestamp)
    ensures Decode(r.id, Encode(r), now) == r
  {
  }

  /** The decoded `User` of `getCurrentUser`: profile phone, else the sign-in
      phone, else ''; `userType` defaults to 'rider', `isActive` to true,
      `hasSelectedRole` to false and `createdAt` to now; `??` keeps a stored
      `false`. */
  function DecodeUser(uid: string, authPhone: Option<string>, data: UserDoc, now: Timestamp): (u: User)
    ensures u.uid == uid
    ensures u.phoneNumber == if Truthy(data.phoneNumber) then data.phoneNumber.value
                              else if Truthy(authPhone) then authPhone.value else ""
    ensures u.displayName == data.displayName
    ensures data.userType.None? ==> u.userType == "rider"
    ensures data.userType.Some? ==> u.userType == data.userType.value
    ensures u.isActive <==> data.isActive != Some(false)
    ensures u.hasSelectedRole <==> data.hasSelectedRole == Some(true)
    ensures u.createdAt == data.createdAt.GetOr(now)
  {
    User(uid, OrElse(data.phoneNumber, OrElse(authPhone, "")), data.displayName,
         data.userType.GetOr("rider"), data.createdAt.GetOr(now),
         data.isActive.GetOr(true), data.hasSelectedRole.GetOr(false))
  }

  // ---------------------------------------------------------------- update

  /** The `operatorInfo` argument of `updateRideRequestStatus`. */
  datatype OperatorArg = OperatorArg(operatorId: string, displayName: Option<string>, phoneNumber: Option<string>)

  /** A field-level update: `status` is always written; `None` means the field
      is not in the update. */
  datatype RideUpdate = RideUpdate(
    status: string,
    operatorId: Option<string>,
    operatorInfo: Option<Info>,
    acceptedAt: Option<Timestamp>,
    completedAt: Option<Timestamp>)

  /** An update that writes `operatorId` writes `operatorInfo` and
      `acceptedAt` with it. */
  predicate StampedUpdate(u: RideUpdate) {
    u.operatorId.Some? ==> u.operatorInfo.Some? && u.acceptedAt.Some?
  }

  /** `updateData` of `updateRideRequestStatus`. */
  function StatusUpdate(status: Status, op: Option<OperatorArg>, now: Timestamp): (u: RideUpdate)
    ensures ParseStatus(u.status) == Some(status)
    ensures u.operatorId.Some? <==> status == Accepted && op.Some?
    ensures u.operatorId.Some? ==>
              (u.operatorId == Some(op.value.operatorId)
               && u.operatorInfo == Some(Info(op.value.displayName, op.value.phoneNumber))
               && u.acceptedAt == Some(now))
    ensures u.operatorInfo.Some? <==> u.operatorId.Some?
    ensures u.acceptedAt.Some? <==> u.operatorId.Some?
    ensures u.completedAt.Some? <==> status == Completed
    ensures u.completedAt.Some? ==> u.completedAt == Some(now)
  {
    var withOperator := status == Accepted && op.Some?;
    RideUpdate(
      StatusName(status),
      if withOperator then Some(op.value.operatorId) else None,
      if withOperator then Some(Info(op.value.displayName, op.value.phoneNumber)) else None,
      if withOperator then Some(now) else None,
      if status == Completed then Some(now) else None)
  }

  /** Firestore `update`: the fields in the update are overwritten, every
      other field keeps its value. */
  function ApplyUpdate(d: RideDoc, u: RideUpdate): (e: RideDoc)
    ensures e.status == u.status
    ensures u.operatorId.Some? ==> e.operatorId == u.operatorId
    ensures u.operatorId.None? ==> e.operatorId == d.operatorId
    ensures u.operatorInfo.Some? ==> e.operatorInfo == u.operatorInfo
    ensures u.operatorInfo.None? ==> e.operatorInfo == d.operatorInfo
    ensures u.acceptedAt.Some? ==> e.acceptedAt == u.acceptedAt
    ensures u.acceptedAt.None? ==> e.acceptedAt == d.acceptedAt
    ensures u.completedAt.Some? ==> e.completedAt == u.completedAt
    ensures u.completedAt.None? ==> e.completedAt == d.completedAt
    ensures e.riderId == d.riderId && e.riderInfo == d.riderInfo && e.location == d.location
    ensures e.requestedAt == d.requestedAt && e.estimatedArrival == d.estimatedArrival
    ensures OperatorStamped(d) && StampedUpdate(u) ==> OperatorStamped(e)
  {
    d.(status := u.status,
       operatorId := if u.operatorId.Some? then u.operatorId else d.operatorId,
       operatorInfo := if u.operatorInfo.Some? then u.operatorInfo else d.operatorInfo,
       acceptedAt := if u.acceptedAt.Some? then u.acceptedAt else d.acceptedAt,
       completedAt := if u.completedAt.Some? then u.completedAt else d.completedAt)
  }

  /** `updateRideRequestStatus(id, 'accepted')` without operator details
      moves a request to accepted without writing an `operatorId`. */
  lemma AcceptedWithoutOperator(riderId: string, profile: UserDoc, pickup: Pickup, created: Timestamp, now: Timestamp)
    ensures var e := ApplyUpdate(NewRideDoc(riderId, profile, pickup, created), StatusUpdate(Accepted, None, now));
            ParseStatus(e.status) == Some(Accepted) && e.operatorId.None?
  {
  }

  // ---------------------------------------------------------------- presence

  /** `set({available: true, location, updatedAt}, {merge: true})` on
      `operators/{id}`: a missing record is created, the other fields of an
      existing one are kept. */
  function MergePresence(prior: Option<PresenceDoc>, at: LatLng, now: Timestamp): (p: PresenceDoc)
    ensures p.available == Some(true) && p.location == Some(at) && p.updatedAt == Some(now)
    ensures p.others == if prior.Some? then prior.value.others else map[]
  {
    PresenceDoc(Some(true), Some(at), Some(now), if prior.Some? then prior.value.others else map[])
  }
}
