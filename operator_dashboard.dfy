/** src/components/OperatorDashboard.tsx: the operator's lists of pending and
    own accepted requests, fed by two query listeners, and the acceptance of a
    request. Acceptance is an unconditional field update: it does not look at
    the current status, and a later acceptance overwrites an earlier one. */
module OperatorDashboard {
  import opened Common
  import opened RideRecords
  import opened RideQueries
  import opened FirebaseService

  /** The signed-in operator as the dashboard receives it. */
  datatype Operator = Operator(uid: string, displayName: Option<string>, phoneNumber: Option<string>)

  /** The update `acceptRide` writes: status accepted, the operator's id, its
      name and phone ('' when missing) and the acceptance time. */
  function AcceptUpdate(op: Operator, now: Timestamp): (u: RideUpdate)
    ensures ParseStatus(u.status) == Some(Accepted)
    ensures u.operatorId == Some(op.uid) && u.acceptedAt == Some(now) && u.completedAt.None?
    ensures u.operatorInfo.Some? && u.operatorInfo.value.displayName.Some? && u.operatorInfo.value.phoneNumber.Some?
    ensures u.operatorInfo.value.displayName.value == (if Truthy(op.displayName) then op.displayName.value else "")
    ensures u.operatorInfo.value.phoneNumber.value == (if Truthy(op.phoneNumber) then op.phoneNumber.value else "")
    ensures StampedUpdate(u)
  {
    RideUpdate(StatusName(Accepted), Some(op.uid),
               Some(Info(Some(OrElse(op.displayName, "")), Some(OrElse(op.phoneNumber, "")))),
               Some(now), None)
  }

  /** The two writers of ride requests outside creation. */
  datatype Write = StatusWrite(status: Status, op: Option<OperatorArg>, at: Timestamp) | AcceptWrite(operator: Operator, at: Timestamp)

  function UpdateOf(w: Write): RideUpdate {
    match w
    case StatusWrite(status, op, at) => StatusUpdate(status, op, at)
    case AcceptWrite(operator, at) => AcceptUpdate(operator, at)
  }

  /** Both writers write `operatorId` only together with status accepted. */
  lemma OperatorIdOnlyWithAccepted(w: Write)
    ensures UpdateOf(w).operatorId.Some? ==> ParseStatus(UpdateOf(w).status) == Some(Accepted)
    ensures StampedUpdate(UpdateOf(w))
  {
  }

  /** A document after a run of writes, oldest first. */
  function Replay(d: RideDoc, ws: seq<Write>): RideDoc
    decreases |ws|
  {
    if ws == [] then d else ApplyUpdate(Replay(d, ws[..|ws| - 1]), UpdateOf(ws[|ws| - 1]))
  }

  /** `ws[i]` is an acceptance that wrote `id`, and no later write in `ws`
      touches `operatorId`. */
  predicate LastAcceptance(ws: seq<Write>, i: int, id: Option<string>) {
    && 0 <= i < |ws|
    && ParseStatus(UpdateOf(ws[i]).status) == Some(Accepted)
    && UpdateOf(ws[i]).operatorId == id
    && forall j :: i < j < |ws| ==> UpdateOf(ws[j]).operatorId.None?
  }

  /** Whatever writes a new request goes through, an `operatorId` it holds was
      written by an acceptance (a write with status accepted), and no later
      write touched the field. */
  lemma {:induction false} OperatorIdFromLastAcceptance(d: RideDoc, ws: seq<Write>)
    requires d.operatorId.None?
    ensures Replay(d, ws).operatorId.Some? ==> exists i :: LastAcceptance(ws, i, Replay(d, ws).operatorId)
    decreases |ws|
  {
    if ws != [] {
      var prefix := ws[..|ws| - 1];
      var w := ws[|ws| - 1];
      assert Replay(d, ws) == ApplyUpdate(Replay(d, prefix), UpdateOf(w));
      OperatorIdOnlyWithAccepted(w);
      if UpdateOf(w).operatorId.Some? {
        assert LastAcceptance(ws, |ws| - 1, Replay(d, ws).operatorId);
      } else if Replay(d, ws).operatorId.Some? {
        OperatorIdFromLastAcceptance(d, prefix);
        var i :| LastAcceptance(prefix, i, Replay(d, prefix).operatorId);
        LastAcceptanceExtends(prefix, w, i, Replay(d, ws).operatorId);
        assert prefix + [w] == ws;
      }
    }
  }

  /** A write that leaves `operatorId` alone keeps the last acceptance. */
  lemma LastAcceptanceExtends(ws: seq<Write>, w: Write, i: int, id: Option<string>)
    requires LastAcceptance(ws, i, id) && UpdateOf(w).operatorId.None?
    ensures LastAcceptance(ws + [w], i, id)
  {
    var all := ws + [w];
    assert forall j :: 0 <= j < |ws| ==> all[j] == ws[j];
  }

  /** No first-wins: a second acceptance replaces the first operator. */
  lemma LaterAcceptanceWins(d: RideDoc, first: Operator, second: Operator, t1: Timestamp, t2: Timestamp)
    ensures var e := ApplyUpdate(ApplyUpdate(d, AcceptUpdate(first, t1)), AcceptUpdate(second, t2));
            e.operatorId == Some(second.uid) && e.acceptedAt == Some(t2) && ParseStatus(e.status) == Some(Accepted)
  {
  }

  /** Acceptance applies whatever the current status, and touches neither the
      rider, the rider's details nor the pickup. */
  lemma AcceptanceKeepsRiderFields(d: RideDoc, op: Operator, now: Timestamp)
    ensures var e := ApplyUpdate(d, AcceptUpdate(op, now));
            && ParseStatus(e.status) == Some(Accepted) && e.operatorId == Some(op.uid)
            && e.riderId == d.riderId && e.riderInfo == d.riderInfo && e.location == d.location
            && e.requestedAt == d.requestedAt && e.completedAt == d.completedAt
  {
  }

  /** A request cancelled after it was accepted keeps its operator: status
      'cancelled' does not imply that `operatorId` is absent. */
  lemma CancelAfterAcceptKeepsOperator(d: RideDoc, op: Operator, t1: Timestamp, t2: Timestamp)
    ensures var e := ApplyUpdate(ApplyUpdate(d, AcceptUpdate(op, t1)), StatusUpdate(Cancelled, None, t2));
            ParseStatus(e.status) == Some(Cancelled) && e.operatorId == Some(op.uid)
  {
  }

  /** `where('status', '==', 'pending')` */
  const PendingQuery: seq<Where> := [StatusIs("pending")]

  /** `where('status', '==', 'accepted').where('operatorId', '==', uid)` */
  function AcceptedQuery(uid: string): seq<Where> {
    [StatusIs("accepted"), OperatorIs(uid)]
  }

  /** The pending query matches exactly the pending requests. */
  lemma PendingQueryExact(d: RideDoc)
    ensures MatchesAll(PendingQuery, d) <==> d.status == "pending"
  {
    assert PendingQuery[0] == StatusIs("pending");
  }

  /** The accepted query matches exactly the accepted requests of `uid`. */
  lemma AcceptedQueryExact(uid: string, d: RideDoc)
    ensures MatchesAll(AcceptedQuery(uid), d) <==> d.status == "accepted" && d.operatorId == Some(uid)
  {
    var q := AcceptedQuery(uid);
    assert q[0] == StatusIs("accepted") && q[1] == OperatorIs(uid);
  }

  class Dashboard {
    const backend: Backend
    const user: Operator
    var pending: seq<Entry>
    var accepted: seq<Entry>
    /** The two unsubscribe handles of the mount effect. */
    var pendingSub: Option<Handle>
    var acceptedSub: Option<Handle>

    ghost predicate Valid()
      reads this, backend
    {
      && backend.Valid()
      && (pendingSub.Some? ==> pendingSub.value in backend.listeners && backend.listeners[pendingSub.value] == QueryTarget(PendingQuery))
      && (acceptedSub.Some? ==>
            acceptedSub.value in backend.listeners && backend.listeners[acceptedSub.value] == QueryTarget(AcceptedQuery(user.uid)))
    }

    constructor (backend: Backend, user: Operator)
      requires backend.Valid()
      ensures Valid()
      ensures this.backend == backend && this.user == user
      ensures pending == [] && accepted == [] && pendingSub == None && acceptedSub == None
    {
      this.backend, this.user := backend, user;
      pending, accepted := [], [];
      pendingSub, acceptedSub := None, None;
    }

    /** The mount effect: a listener on each of the two queries. */
    method Mount()
      requires Valid() && pendingSub == None && acceptedSub == None
      modifies this, backend
      ensures Valid() && pendingSub.Some? && acceptedSub.Some?
      ensures backend.listeners ==
                old(backend.listeners)[pendingSub.value := QueryTarget(PendingQuery)][acceptedSub.value := QueryTarget(AcceptedQuery(user.uid))]
      ensures backend.subLog == old(backend.subLog)
                + [Subscribed(pendingSub.value, QueryTarget(PendingQuery)), Subscribed(acceptedSub.value, QueryTarget(AcceptedQuery(user.uid)))]
      ensures pendingSub.value == old(backend.nextHandle) && acceptedSub.value == old(backend.nextHandle) + 1
      ensures backend.nextHandle == old(backend.nextHandle) + 2
      ensures pending == old(pending) && accepted == old(accepted)
      ensures backend.rides == old(backend.rides) && backend.users == old(backend.users)
      ensures backend.operators == old(backend.operators) && backend.nextRide == old(backend.nextRide)
    {
      var p := backend.Listen(QueryTarget(PendingQuery));
      var a := backend.Listen(QueryTarget(AcceptedQuery(user.uid)));
      pendingSub, acceptedSub := Some(p), Some(a);
    }

    /** A snapshot of the pending query: the list becomes exactly the pending
        requests, in id order. */
    method OnPendingSnapshot()
      requires Valid() && pendingSub.Some?
      modifies this`pending
      ensures Valid()
      ensures forall i :: 0 <= i < |pending| ==>
                pending[i].id in backend.rides && pending[i].doc == backend.rides[pending[i].id]
                && pending[i].doc.status == "pending"
      ensures forall id :: id in backend.rides && backend.rides[id].status == "pending" ==>
                exists i :: 0 <= i < |pending| && pending[i].id == id
      ensures forall i, j :: 0 <= i < j < |pending| ==> pending[i].id < pending[j].id
    {
      pending := backend.QuerySnapshot(pendingSub.value);
      forall d: RideDoc ensures MatchesAll(PendingQuery, d) <==> d.status == "pending" {
        PendingQueryExact(d);
      }
    }

    /** A snapshot of the accepted query: the list becomes exactly this
        operator's accepted requests, in id order. */
    method OnAcceptedSnapshot()
      requires Valid() && acceptedSub.Some?
      modifies this`accepted
      ensures Valid()
      ensures forall i :: 0 <= i < |accepted| ==>
                accepted[i].id in backend.rides && accepted[i].doc == backend.rides[accepted[i].id]
                && accepted[i].doc.status == "accepted" && accepted[i].doc.operatorId == Some(user.uid)
      ensures forall id :: id in backend.rides && backend.rides[id].status == "accepted" && backend.rides[id].operatorId == Some(user.uid) ==>
                exists i :: 0 <= i < |accepted| && accepted[i].id == id
      ensures forall i, j :: 0 <= i < j < |accepted| ==> accepted[i].id < accepted[j].id
    {
      accepted := backend.QuerySnapshot(acceptedSub.value);
      forall d: RideDoc ensures MatchesAll(AcceptedQuery(user.uid), d) <==> d.status == "accepted" && d.operatorId == Some(user.uid) {
        AcceptedQueryExact(user.uid, d);
      }
    }

    /** `acceptRide`: writes `AcceptUpdate` to the request, whatever its
        status; the store rejects a missing request. */
    method AcceptRide(id: RideId, now: Timestamp, fault: Option<Thrown>) returns (r: Result<(), Thrown>)
      requires Valid()
      modifies backend
      ensures Valid()
      ensures r.Success? <==> fault.None? && id in old(backend.rides)
      ensures r.Success? ==> backend.rides == old(backend.rides)[id := ApplyUpdate(old(backend.rides)[id], AcceptUpdate(user, now))]
      ensures r.Failure? ==> backend.rides == old(backend.rides)
      ensures backend.listeners == old(backend.listeners) && backend.operators == old(backend.operators)
      ensures backend.users == old(backend.users) && backend.subLog == old(backend.subLog)
      ensures backend.nextRide == old(backend.nextRide) && backend.nextHandle == old(backend.nextHandle)
    {
      r := backend.UpdateRide(id, AcceptUpdate(user, now), fault);
    }

    /** The mount effect's cleanup: both listeners are dropped. */
    method Unmount()
      requires Valid()
      modifies backend
      ensures backend.Valid()
      ensures pendingSub.Some? ==> pendingSub.value !in backend.listeners
      ensures acceptedSub.Some? ==> acceptedSub.value !in backend.listeners
      ensures backend.listeners == old(backend.listeners) - (if pendingSub.Some? then {pendingSub.value} else {})
                                                          - (if acceptedSub.Some? then {acceptedSub.value} else {})
      ensures backend.subLog == old(backend.subLog)
                + (if pendingSub.Some? then [Unsubscribed(pendingSub.value)] else [])
                + (if acceptedSub.Some? then [Unsubscribed(acceptedSub.value)] else [])
      ensures backend.rides == old(backend.rides) && backend.users == old(backend.users)
      ensures backend.operators == old(backend.operators)
      ensures backend.nextRide == old(backend.nextRide) && backend.nextHandle == old(backend.nextHandle)
    {
      if pendingSub.Some? {
        backend.Unsubscribe(pendingSub.value);
      }
      if acceptedSub.Some? {
        backend.Unsubscribe(acceptedSub.value);
      }
    }
  }
}
