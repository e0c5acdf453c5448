/**
 * The store queries the engine issues, by shape: equality and `in` filters
 * over one collection, results in the store's document order.
 */
module Queries {
  import opened Common
  import opened Records

  /** The two filters run against `rides`. */
  datatype Query =
    | ActiveTrips                    // status in [scheduled, started, completed]
    | ActiveOnRoute(key: string)     // the same, and stored routeKey == key

  predicate Matches(t: Trip, q: Query) {
    && IsActive(t.status)
    && (q.ActiveOnRoute? ==> t.routeKey == Some(q.key))
  }

  /** The documents among `ids` that satisfy `q`, in the order of `ids`. */
  function Select(rides: map<TripId, Trip>, ids: seq<TripId>, q: Query): (r: seq<TripId>)
    ensures forall x {:trigger x in r} :: x in r <==> x in ids && x in rides && Matches(rides[x], q)
    ensures SubsequenceOf(r, ids)
  {
    if ids == [] then []
    else
      var rest := Select(rides, ids[1..], q);
      if ids[0] in rides && Matches(rides[ids[0]], q) then
        assert ([ids[0]] + rest)[1..] == rest;
        [ids[0]] + rest
      else rest
  }

  /** A query over distinct documents returns no document twice. */
  lemma {:induction false} SelectDistinct(rides: map<TripId, Trip>, ids: seq<TripId>, q: Query)
    requires Distinct(ids)
    ensures Distinct(Select(rides, ids, q))
  {
    if ids != [] {
      DistinctTail(ids);
      SelectDistinct(rides, ids[1..], q);
      var rest := Select(rides, ids[1..], q);
      if ids[0] in rides && Matches(rides[ids[0]], q) {
        assert ids[0] !in rest;
      }
    }
  }

  /** Run a query against a snapshot. */
  function Run(db: Db, q: Query): seq<TripId> {
    Select(db.rides, db.order, q)
  }

  /** On a consistent snapshot a query returns each document at most once. */
  lemma RunDistinct(db: Db, q: Query)
    requires Valid(db)
    ensures Distinct(Run(db, q))
  {
    SelectDistinct(db.rides, db.order, q);
  }

  /** The bookings `rideId == id && status == accepted`, in collection order. */
  function AcceptedRequests(bs: seq<Booking>, id: TripId): (r: seq<Booking>)
    ensures forall b {:trigger b in r} :: b in r <==> b in bs && b.rideId == id && b.status == Accepted
    ensures |r| <= |bs|
  {
    if bs == [] then []
    else if bs[0].rideId == id && bs[0].status == Accepted then [bs[0]] + AcceptedRequests(bs[1..], id)
    else AcceptedRequests(bs[1..], id)
  }

  /**
   * Reference count: how many accepted bookings in the collection belong to
   * any trip of `trips`.
   */
  function AcceptedOn(bs: seq<Booking>, trips: set<TripId>): nat {
    if bs == [] then 0
    else (if bs[0].status == Accepted && bs[0].rideId in trips then 1 else 0) + AcceptedOn(bs[1..], trips)
  }

  /** The size of one trip's accepted-bookings query is the reference count for that trip. */
  lemma {:induction false} AcceptedRequestsCount(bs: seq<Booking>, id: TripId)
    ensures |AcceptedRequests(bs, id)| == AcceptedOn(bs, {id})
  {
    if bs != [] {
      AcceptedRequestsCount(bs[1..], id);
    }
  }

  lemma {:induction false} AcceptedOnEmpty(bs: seq<Booking>)
    ensures AcceptedOn(bs, {}) == 0
  {
    if bs != [] {
      AcceptedOnEmpty(bs[1..]);
    }
  }

  /** Counting over two disjoint sets of trips adds up. */
  lemma {:induction false} AcceptedOnDisjointUnion(bs: seq<Booking>, a: set<TripId>, b: set<TripId>)
    requires a !! b
    ensures AcceptedOn(bs, a + b) == AcceptedOn(bs, a) + AcceptedOn(bs, b)
  {
    if bs != [] {
      AcceptedOnDisjointUnion(bs[1..], a, b);
    }
  }

  /**
   * The only bookings that count are accepted ones: replacing a booking that
   * is not accepted by another that is not accepted changes no trip's count.
   */
  lemma {:induction false} NonAcceptedRequestIrrelevant(bs: seq<Booking>, k: nat, b: Booking, id: TripId)
    requires k < |bs|
    requires bs[k].status != Accepted && b.status != Accepted
    ensures |AcceptedRequests(bs[k := b], id)| == |AcceptedRequests(bs, id)|
  {
    if k > 0 {
      assert bs[k := b][1..] == bs[1..][k - 1 := b];
      NonAcceptedRequestIrrelevant(bs[1..], k - 1, b, id);
    } else {
      assert bs[k := b][1..] == bs[1..];
    }
  }
}
