/** The collection queries over `rideRequests`: `where` filters, `orderBy
    ('requestedAt', 'desc')` and `limit`. A query without `orderBy` returns
    documents in id order; an ordered one returns only documents that have the
    ordering field, newest first, equal times broken by the larger id first. */
module RideQueries {
  import opened Common
  import opened RideRecords

  /** One `where(field, '==', value)` clause, plus the filter `orderBy` on
      `requestedAt` implies. */
  datatype Where = StatusIs(name: string) | RiderIs(uid: string) | OperatorIs(uid: string) | HasRequestedAt

  predicate Holds(w: Where, d: RideDoc) {
    match w
    case StatusIs(name) => d.status == name
    case RiderIs(uid) => d.riderId == uid
    case OperatorIs(uid) => d.operatorId == Some(uid)
    case HasRequestedAt => d.requestedAt.Some?
  }

  predicate MatchesAll(ws: seq<Where>, d: RideDoc) {
    forall i :: 0 <= i < |ws| ==> Holds(ws[i], d)
  }

  /** The ids below `n` of the documents matching every clause, in id order. */
  function Select(rides: map<RideId, RideDoc>, n: nat, ws: seq<Where>): (ids: seq<RideId>)
    ensures forall i :: 0 <= i < |ids| ==> ids[i] < n && ids[i] in rides && MatchesAll(ws, rides[ids[i]])
    ensures forall id :: id < n && id in rides && MatchesAll(ws, rides[id]) ==> id in ids
    ensures forall i, j :: 0 <= i < j < |ids| ==> ids[i] < ids[j]
  {
    if n == 0 then []
    else
      var prev := Select(rides, n - 1, ws);
      if n - 1 in rides && MatchesAll(ws, rides[n - 1]) then prev + [n - 1] else prev
  }

  // ---------------------------------------------------------------- ordering

  predicate Keyed(rides: map<RideId, RideDoc>, id: RideId) {
    id in rides && rides[id].requestedAt.Some?
  }

  predicate AllKeyed(rides: map<RideId, RideDoc>, ids: seq<RideId>) {
    forall i :: 0 <= i < |ids| ==> Keyed(rides, ids[i])
  }

  /** `a` comes before `b` in `orderBy('requestedAt', 'desc')`. */
  predicate Before(rides: map<RideId, RideDoc>, a: RideId, b: RideId)
    requires Keyed(rides, a) && Keyed(rides, b)
  {
    var ta, tb := rides[a].requestedAt.value, rides[b].requestedAt.value;
    ta > tb || (ta == tb && a > b)
  }

  predicate SortedDesc(rides: map<RideId, RideDoc>, ids: seq<RideId>)
    requires AllKeyed(rides, ids)
  {
    forall i, j :: 0 <= i < j < |ids| ==> Before(rides, ids[i], ids[j])
  }

  predicate Distinct(ids: seq<RideId>) {
    forall i, j :: 0 <= i < j < |ids| ==> ids[i] != ids[j]
  }

  function Insert(rides: map<RideId, RideDoc>, id: RideId, ids: seq<RideId>): (r: seq<RideId>)
    requires Keyed(rides, id) && AllKeyed(rides, ids) && SortedDesc(rides, ids) && id !in ids
    ensures AllKeyed(rides, r) && SortedDesc(rides, r)
    ensures multiset(r) == multiset(ids) + multiset{id}
    ensures forall x :: x in r <==> x in ids || x == id
  {
    if ids == [] then [id]
    else if Before(rides, id, ids[0]) then [id] + ids
    else
      var tail := ids[1..];
      assert ids == [ids[0]] + tail;
      var rest := Insert(rides, id, tail);
      HeadBeforeAll(rides, ids[0], tail, id, rest);
      [ids[0]] + rest
  }

  /** The head of a sorted list, which comes before `id`, can go in front of
      the tail sorted with `id` added. */
  lemma HeadBeforeAll(rides: map<RideId, RideDoc>, head: RideId, tail: seq<RideId>, id: RideId, rest: seq<RideId>)
    requires Keyed(rides, head) && Keyed(rides, id) && AllKeyed(rides, tail) && AllKeyed(rides, rest)
    requires !Before(rides, id, head) && id != head
    requires forall k :: 0 <= k < |tail| ==> Before(rides, head, tail[k])
    requires forall x :: x in rest <==> x in tail || x == id
    requires SortedDesc(rides, rest)
    ensures AllKeyed(rides, [head] + rest) && SortedDesc(rides, [head] + rest)
  {
    forall k | 0 <= k < |rest| ensures Before(rides, head, rest[k]) {
      assert rest[k] in rest;
      if rest[k] != id {
        var m :| 0 <= m < |tail| && tail[m] == rest[k];
      }
    }
    var r := [head] + rest;
    assert forall k :: 0 < k < |r| ==> r[k] == rest[k - 1];
  }

  /** The ordered result of a query whose matches are `ids`. */
  function SortDesc(rides: map<RideId, RideDoc>, ids: seq<RideId>): (r: seq<RideId>)
    requires AllKeyed(rides, ids) && Distinct(ids)
    ensures AllKeyed(rides, r) && SortedDesc(rides, r)
    ensures multiset(r) == multiset(ids)
    ensures forall x :: x in r <==> x in ids
  {
    if ids == [] then []
    else
      var tail := ids[1..];
      assert ids == [ids[0]] + tail;
      assert AllKeyed(rides, tail) && Distinct(tail);
      var rest := SortDesc(rides, tail);
      assert ids[0] !in tail;
      Insert(rides, ids[0], rest)
  }

  // ---------------------------------------------------------------- the queries

  lemma MatchesWithOrderField(ws: seq<Where>, d: RideDoc)
    ensures MatchesAll(ws + [HasRequestedAt], d) <==> MatchesAll(ws, d) && d.requestedAt.Some?
  {
    var all := ws + [HasRequestedAt];
    if MatchesAll(ws, d) && d.requestedAt.Some? {
      forall i | 0 <= i < |all| ensures Holds(all[i], d) {
        if i < |ws| { assert all[i] == ws[i]; }
      }
    }
    if MatchesAll(all, d) {
      forall i | 0 <= i < |ws| ensures Holds(ws[i], d) {
        assert all[i] == ws[i];
      }
      assert Holds(all[|ws|], d);
    }
  }

  /** `where(...).orderBy('requestedAt', 'desc')`: the matching documents
      that carry a `requestedAt`, newest first. */
  function OrderedSelect(rides: map<RideId, RideDoc>, n: nat, ws: seq<Where>): (ids: seq<RideId>)
    ensures AllKeyed(rides, ids) && SortedDesc(rides, ids)
    ensures forall i :: 0 <= i < |ids| ==> ids[i] < n && ids[i] in rides && MatchesAll(ws, rides[ids[i]])
    ensures forall id :: id < n && id in rides && MatchesAll(ws, rides[id]) && rides[id].requestedAt.Some? ==> id in ids
  {
    var sel := Select(rides, n, ws + [HasRequestedAt]);
    assert forall i :: 0 <= i < |sel| ==> MatchesAll(ws + [HasRequestedAt], rides[sel[i]]);
    assert AllKeyed(rides, sel) && forall i :: 0 <= i < |sel| ==> MatchesAll(ws, rides[sel[i]]) by {
      forall i | 0 <= i < |sel| ensures Keyed(rides, sel[i]) && MatchesAll(ws, rides[sel[i]]) {
        MatchesWithOrderField(ws, rides[sel[i]]);
      }
    }
    assert Distinct(sel);
    var r := SortDesc(rides, sel);
    forall i | 0 <= i < |r| ensures r[i] < n && r[i] in rides && MatchesAll(ws, rides[r[i]]) {
      assert r[i] in r;
      var k :| 0 <= k < |sel| && sel[k] == r[i];
      MatchesWithOrderField(ws, rides[r[i]]);
    }
    forall id | id < n && id in rides && MatchesAll(ws, rides[id]) && rides[id].requestedAt.Some? ensures id in r {
      MatchesWithOrderField(ws, rides[id]);
    }
    r
  }

  lemma MatchesOne(w: Where, d: RideDoc)
    ensures MatchesAll([w], d) <==> Holds(w, d)
  {
    assert [w][0] == w;
  }

  /** `where('status', '==', 'pending').orderBy('requestedAt', 'desc')` */
  function PendingIds(rides: map<RideId, RideDoc>, n: nat): (ids: seq<RideId>)
    ensures AllKeyed(rides, ids) && SortedDesc(rides, ids)
    ensures forall i :: 0 <= i < |ids| ==> ids[i] < n && ids[i] in rides && rides[ids[i]].status == "pending"
    ensures forall id :: id < n && id in rides && rides[id].status == "pending" && rides[id].requestedAt.Some? ==> id in ids
  {
    var w := StatusIs("pending");
    forall d: RideDoc ensures MatchesAll([w], d) <==> d.status == "pending" { MatchesOne(w, d); }
    OrderedSelect(rides, n, [w])
  }

  /** The documents of `rider`, newest first: `where('riderId', '==', rider)
      .orderBy('requestedAt', 'desc')`, before the limit. */
  function RiderOrdered(rides: map<RideId, RideDoc>, n: nat, rider: string): (ids: seq<RideId>)
    ensures AllKeyed(rides, ids) && SortedDesc(rides, ids)
    ensures forall i :: 0 <= i < |ids| ==> ids[i] < n && ids[i] in rides && rides[ids[i]].riderId == rider
    ensures forall id :: id < n && id in rides && rides[id].riderId == rider && rides[id].requestedAt.Some? ==> id in ids
  {
    var w := RiderIs(rider);
    forall d: RideDoc ensures MatchesAll([w], d) <==> d.riderId == rider { MatchesOne(w, d); }
    OrderedSelect(rides, n, [w])
  }

  /** The limit of `getRiderRequests`. */
  const RiderLimit: nat := 10

  /** A prefix of a query result is still in the query's order. */
  lemma PrefixSorted(rides: map<RideId, RideDoc>, all: seq<RideId>, k: nat)
    requires AllKeyed(rides, all) && SortedDesc(rides, all) && k <= |all|
    ensures AllKeyed(rides, all[..k]) && SortedDesc(rides, all[..k])
    ensures forall i :: 0 <= i < k ==> all[..k][i] == all[i]
  {
    var ids := all[..k];
    assert forall i :: 0 <= i < |ids| ==> ids[i] == all[i];
  }

  /** `...limit(10)` */
  function RiderIds(rides: map<RideId, RideDoc>, n: nat, rider: string): (ids: seq<RideId>)
    ensures AllKeyed(rides, ids) && SortedDesc(rides, ids)
    ensures |ids| <= RiderLimit
    ensures forall i :: 0 <= i < |ids| ==> ids[i] < n && ids[i] in rides && rides[ids[i]].riderId == rider
  {
    var all := RiderOrdered(rides, n, rider);
    var k := if |all| <= RiderLimit then |all| else RiderLimit;
    PrefixSorted(rides, all, k);
    all[..k]
  }

  /** The rider query keeps that rider's ten newest requests: a request of
      the rider that it leaves out comes after each of the ten it returns. */
  lemma {:induction false} RiderIdsAreTheNewest(rides: map<RideId, RideDoc>, n: nat, rider: string, other: RideId)
    requires other < n && other in rides && rides[other].riderId == rider && rides[other].requestedAt.Some?
    ensures other !in RiderIds(rides, n, rider) ==>
              |RiderIds(rides, n, rider)| == RiderLimit
              && forall id :: id in RiderIds(rides, n, rider) ==> Before(rides, id, other)
  {
    var all := RiderOrdered(rides, n, rider);
    var ids := RiderIds(rides, n, rider);
    assert ids == all[..|ids|];
    forall id | id in ids ensures id in all {
      var i :| 0 <= i < |ids| && ids[i] == id;
      assert all[i] == id;
    }
    if other !in ids {
      var k :| 0 <= k < |all| && all[k] == other;
      assert forall i :: 0 <= i < |ids| ==> all[i] != other;
      assert k >= |ids|;
      forall id | id in ids ensures Before(rides, id, other) {
        var i :| 0 <= i < |ids| && ids[i] == id;
        assert all[i] == id;
      }
    }
  }

  /** A query result document as a snapshot hands it over: its id and its
      stored fields, undecoded. */
  datatype Entry = Entry(id: RideId, doc: RideDoc)

  /** The documents of `ids`, in the same order. */
  function Entries(rides: map<RideId, RideDoc>, ids: seq<RideId>): (es: seq<Entry>)
    requires forall i :: 0 <= i < |ids| ==> ids[i] in rides
    ensures |es| == |ids|
    ensures forall i :: 0 <= i < |ids| ==> es[i] == Entry(ids[i], rides[ids[i]])
  {
    seq(|ids|, i requires 0 <= i < |ids| => Entry(ids[i], rides[ids[i]]))
  }

  /** The ids of `s` decoded into `RideRequest`s, in the same order. */
  function DecodeAll(rides: map<RideId, RideDoc>, ids: seq<RideId>, now: Timestamp): (rs: seq<RideRequest>)
    requires forall i :: 0 <= i < |ids| ==> ids[i] in rides
    ensures |rs| == |ids|
    ensures forall i :: 0 <= i < |ids| ==> rs[i] == Decode(ids[i], rides[ids[i]], now)
  {
    seq(|ids|, i requires 0 <= i < |ids| => Decode(ids[i], rides[ids[i]], now))
  }

  /** Decoding an ordered result keeps it newest first and keeps the ids. */
  lemma DecodedNewestFirst(rides: map<RideId, RideDoc>, ids: seq<RideId>, now: Timestamp)
    requires AllKeyed(rides, ids) && SortedDesc(rides, ids)
    ensures forall i :: 0 <= i < |ids| ==> DecodeAll(rides, ids, now)[i].id == ids[i]
    ensures forall i, j :: 0 <= i < j < |ids| ==>
              DecodeAll(rides, ids, now)[i].requestedAt >= DecodeAll(rides, ids, now)[j].requestedAt
  {
    var rs := DecodeAll(rides, ids, now);
    forall i, j | 0 <= i < j < |ids| ensures rs[i].requestedAt >= rs[j].requestedAt {
      assert Before(rides, ids[i], ids[j]);
    }
  }

  /** `RiderIdsAreTheNewest` for every request of the rider at once, read off
      the decoded result. */
  lemma RiderDecodedComplete(rides: map<RideId, RideDoc>, n: nat, rider: string, now: Timestamp)
    ensures var rs := DecodeAll(rides, RiderIds(rides, n, rider), now);
            forall other :: other < n && other in rides && rides[other].riderId == rider && rides[other].requestedAt.Some?
                            && (forall i :: 0 <= i < |rs| ==> rs[i].id != other) ==>
              |rs| == RiderLimit && forall i :: 0 <= i < |rs| ==> Keyed(rides, rs[i].id) && Before(rides, rs[i].id, other)
  {
    var ids := RiderIds(rides, n, rider);
    var rs := DecodeAll(rides, ids, now);
    forall other | other < n && other in rides && rides[other].riderId == rider && rides[other].requestedAt.Some?
                   && (forall i :: 0 <= i < |rs| ==> rs[i].id != other)
      ensures |rs| == RiderLimit && forall i :: 0 <= i < |rs| ==> Keyed(rides, rs[i].id) && Before(rides, rs[i].id, other)
    {
      DecodedNewestFirst(rides, ids, now);
      RiderIdsAreTheNewest(rides, n, rider, other);
      forall i | 0 <= i < |rs| ensures Keyed(rides, rs[i].id) && Before(rides, rs[i].id, other) {
        assert rs[i].id == ids[i] && ids[i] in ids;
      }
    }
  }
}
