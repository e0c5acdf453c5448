/**
 * The single-trip calculator: recompute one trip's popularity score from the
 * snapshot and write back exactly three fields of that trip.
 */
module Calculator {
  import opened Common
  import opened Records
  import opened RouteKeys
  import opened Queries

  /** What a recompute can throw. */
  datatype Error =
    | NotFound(tripId: TripId)     // the point read found no document
    | StoreError(message: string)  // a query or the update failed

  /** The `message` of the thrown error. */
  function Message(e: Error): string {
    match e
    case NotFound(id) => "Trip " + id + " not found"
    case StoreError(m) => m
  }

  /**
   * Store failures the model cannot see, as an oracle: a recompute of a trip
   * in `failing` fails, after its point read, with that message; `scanError`
   * makes the reconcilers' initial query fail.
   */
  datatype Faults = Faults(failing: map<TripId, string>, scanError: Option<string>)

  /** A successful recompute: the written store and the `{tripId, popularityScore}` it returns. */
  datatype Recomputed = Recomputed(db: Db, tripId: TripId, popularityScore: nat)

  /** The trip after a recompute wrote `score` at `now`: only the three derived fields differ. */
  function Rescore(t: Trip, score: nat, now: Timestamp): Trip {
    t.(popularityScore := Some(score), routeKey := Some(DerivedKey(t)), lastPopularityUpdate := Some(now))
  }

  /** `db'` is `db` with trip `id` rescored and nothing else changed. */
  predicate PointUpdate(db: Db, db': Db, id: TripId, score: nat, now: Timestamp) {
    && id in db.rides
    && db'.order == db.order
    && db'.requests == db.requests
    && db'.rides.Keys == db.rides.Keys
    && (forall x {:trigger db'.rides[x]} :: x in db.rides && x != id ==> db'.rides[x] == db.rides[x])
    && db'.rides[id] == Rescore(db.rides[id], score, now)
  }

  /** `t'` is `t` rescored at `now` with some score. */
  predicate Rescored(t: Trip, t': Trip, now: Timestamp) {
    t'.popularityScore.Some? && t' == Rescore(t, t'.popularityScore.value, now)
  }

  /** The collections keep their documents; only trip fields may differ. */
  predicate SameShape(db: Db, db': Db) {
    db'.order == db.order && db'.requests == db.requests && db'.rides.Keys == db.rides.Keys
  }

  /** The sum, over the same-route query results other than `self`, of their accepted bookings. */
  function RepeatRouteScore(bs: seq<Booking>, same: seq<TripId>, self: TripId): nat {
    if same == [] then 0
    else (if same[0] != self then |AcceptedRequests(bs, same[0])| else 0) + RepeatRouteScore(bs, same[1..], self)
  }

  /** The score the queries of one recompute produce for trip `t` with id `id`. */
  function QueriedScore(db: Db, id: TripId, t: Trip): nat {
    var acceptedBookingsScore := |AcceptedRequests(db.requests, id)| * 2;
    var completedScore := if t.status == Completed then 1 else 0;
    var sameRoute := Run(db, ActiveOnRoute(DerivedKey(t)));
    acceptedBookingsScore + completedScore + RepeatRouteScore(db.requests, sameRoute, id)
  }

  /** Recompute trip `id` at server time `now`. */
  function Recompute(db: Db, id: TripId, now: Timestamp, faults: Faults): (r: Result<Recomputed, Error>)
    ensures id !in db.rides ==> r == Failure(NotFound(id))
    ensures id in db.rides && id in faults.failing ==> r == Failure(StoreError(faults.failing[id]))
    ensures r.Success? <==> id in db.rides && id !in faults.failing
    ensures r.Success? ==> r.value.tripId == id && PointUpdate(db, r.value.db, id, r.value.popularityScore, now)
  {
    if id !in db.rides then Failure(NotFound(id))
    else if id in faults.failing then Failure(StoreError(faults.failing[id]))
    else
      var t := db.rides[id];
      var score := QueriedScore(db, id, t);
      Success(Recomputed(db.(rides := db.rides[id := Rescore(t, score, now)]), id, score))
  }

  /**
   * Missing trip: the calculator throws "Trip <id> not found" and writes
   * nothing (a failure carries no new store, so the caller keeps its own).
   */
  lemma MissingTrip(db: Db, id: TripId, now: Timestamp, faults: Faults)
    requires id !in db.rides
    ensures var r := Recompute(db, id, now, faults);
      r == Failure(NotFound(id)) && Message(r.error) == "Trip " + id + " not found"
  {
  }

  /**
   * Reference definition of the route siblings of trip `id`: every other
   * active trip whose STORED key is `key`.
   */
  function Siblings(db: Db, id: TripId, key: string): set<TripId> {
    set s | s in db.rides && s != id && Matches(db.rides[s], ActiveOnRoute(key))
  }

  /** Reference definition of the popularity score of trip `id`. */
  function ExpectedScore(db: Db, id: TripId): nat
    requires id in db.rides
  {
    var t := db.rides[id];
    2 * AcceptedOn(db.requests, {id})
      + (if t.status == Completed then 1 else 0)
      + AcceptedOn(db.requests, Siblings(db, id, DerivedKey(t)))
  }

  /** Summing per trip over distinct query results counts the bookings of the whole set. */
  lemma {:induction false} RepeatRouteScoreCounts(bs: seq<Booking>, same: seq<TripId>, self: TripId)
    requires Distinct(same)
    ensures RepeatRouteScore(bs, same, self) == AcceptedOn(bs, Elements(same) - {self})
  {
    if same == [] {
      assert Elements(same) - {self} == {};
      AcceptedOnEmpty(bs);
    } else {
      var x, rest := same[0], same[1..];
      DistinctTail(same);
      RepeatRouteScoreCounts(bs, rest, self);
      if x == self {
        assert Elements(same) - {self} == Elements(rest) - {self};
      } else {
        assert Elements(same) - {self} == {x} + (Elements(rest) - {self});
        AcceptedOnDisjointUnion(bs, {x}, Elements(rest) - {self});
        AcceptedRequestsCount(bs, x);
      }
    }
  }

  /** Exact score formula: a successful recompute writes the reference score. */
  lemma ScoreFormula(db: Db, id: TripId, now: Timestamp, faults: Faults)
    requires Valid(db)
    ensures var r := Recompute(db, id, now, faults);
      r.Success? ==> r.value.popularityScore == ExpectedScore(db, id)
  {
    if id in db.rides {
      var t := db.rides[id];
      var key := DerivedKey(t);
      var same := Run(db, ActiveOnRoute(key));
      RunDistinct(db, ActiveOnRoute(key));
      RepeatRouteScoreCounts(db.requests, same, id);
      assert Elements(same) - {id} == Siblings(db, id, key);
      AcceptedRequestsCount(db.requests, id);
    }
  }

  /**
   * Every active trip stores the key its own location names give it, as a
   * recompute leaves it. In such a store the sibling query agrees with the
   * derived keys; inactive trips are never siblings, so their keys do not
   * matter.
   */
  predicate ActiveKeysConsistent(db: Db) {
    forall x :: x in db.rides && IsActive(db.rides[x].status) ==>
      db.rides[x].routeKey == Some(DerivedKey(db.rides[x]))
  }

  /** Trip `x` holds the reference score of the store it is in. */
  predicate Reconciled(db: Db, x: TripId) {
    x in db.rides && db.rides[x].popularityScore == Some(ExpectedScore(db, x))
  }

  /** `db'` agrees with `db` on everything the reference score reads. */
  predicate SameScoringInputs(db: Db, db': Db) {
    && db'.requests == db.requests
    && db'.rides.Keys == db.rides.Keys
    && forall s :: s in db.rides ==>
         && DerivedKey(db'.rides[s]) == DerivedKey(db.rides[s])
         && db'.rides[s].status == db.rides[s].status
         && (IsActive(db.rides[s].status) ==> db'.rides[s].routeKey == db.rides[s].routeKey)
  }

  /** The reference score reads only the requests, statuses, active trips' stored keys and location names. */
  lemma ExpectedScoreFrame(db: Db, db': Db, x: TripId)
    requires SameScoringInputs(db, db') && x in db.rides
    ensures ExpectedScore(db', x) == ExpectedScore(db, x)
  {
    var key := DerivedKey(db.rides[x]);
    assert DerivedKey(db'.rides[x]) == key;
    assert Siblings(db', x, key) == Siblings(db, x, key);
  }

  /** When active trips store their derived keys, a recompute keeps that so and keeps the store consistent. */
  lemma RecomputeKeepsConsistent(db: Db, id: TripId, now: Timestamp, faults: Faults)
    requires Valid(db) && ActiveKeysConsistent(db)
    requires Recompute(db, id, now, faults).Success?
    ensures var db' := Recompute(db, id, now, faults).value.db;
      Valid(db') && ActiveKeysConsistent(db') && SameScoringInputs(db, db')
  {
  }

  /**
   * When active trips store their derived keys, a recompute changes no
   * trip's reference score, keeps that so, and leaves its own trip reconciled.
   */
  lemma RecomputeKeepsExpected(db: Db, id: TripId, now: Timestamp, faults: Faults)
    requires Valid(db) && ActiveKeysConsistent(db)
    requires Recompute(db, id, now, faults).Success?
    ensures var db' := Recompute(db, id, now, faults).value.db;
      && Valid(db') && ActiveKeysConsistent(db')
      && (forall x :: x in db.rides ==> x in db'.rides && ExpectedScore(db', x) == ExpectedScore(db, x))
      && Reconciled(db', id)
  {
    var db' := Recompute(db, id, now, faults).value.db;
    ScoreFormula(db, id, now, faults);
    RecomputeKeepsConsistent(db, id, now, faults);
    forall x | x in db.rides
      ensures ExpectedScore(db', x) == ExpectedScore(db, x)
    {
      ExpectedScoreFrame(db, db', x);
    }
  }

  /** Rewriting trip `self`, whatever it becomes, leaves the sum computed for `self` unchanged. */
  lemma {:induction false} RepeatRouteScoreFrame(
    bs: seq<Booking>, rides: map<TripId, Trip>, ids: seq<TripId>, q: Query, self: TripId, t': Trip)
    requires self in rides
    ensures RepeatRouteScore(bs, Select(rides[self := t'], ids, q), self)
         == RepeatRouteScore(bs, Select(rides, ids, q), self)
  {
    if ids != [] {
      RepeatRouteScoreFrame(bs, rides, ids[1..], q, self, t');
    }
  }

  /**
   * Idempotence: recomputing the same trip again, with nothing changed in
   * between, gives the same score and key; only the timestamp moves. Each
   * call meets the store afresh, so the second one has its own faults: it
   * succeeds exactly when those spare the trip, and otherwise throws their
   * error and writes nothing.
   */
  lemma RecomputeIdempotent(db: Db, id: TripId, now1: Timestamp, now2: Timestamp, faults1: Faults, faults2: Faults)
    requires Recompute(db, id, now1, faults1).Success?
    ensures var r1 := Recompute(db, id, now1, faults1).value;
      var r2 := Recompute(r1.db, id, now2, faults2);
      && (id in faults2.failing ==> r2 == Failure(StoreError(faults2.failing[id])))
      && (id !in faults2.failing ==>
            && r2.Success?
            && r2.value.popularityScore == r1.popularityScore
            && r2.value.db.rides[id].routeKey == r1.db.rides[id].routeKey
            && r2.value.db == r1.db.(rides := r1.db.rides[id := r1.db.rides[id].(lastPopularityUpdate := Some(now2))]))
  {
    var r1 := Recompute(db, id, now1, faults1).value;
    var t := db.rides[id];
    RepeatRouteScoreFrame(db.requests, db.rides, db.order, ActiveOnRoute(DerivedKey(t)), id, r1.db.rides[id]);
    assert r1.db.rides == db.rides[id := r1.db.rides[id]];
  }

  /** Each trip's accepted-bookings query ignores a swap between non-accepted bookings. */
  lemma {:induction false} RepeatRouteScoreNonAccepted(bs: seq<Booking>, k: nat, b: Booking, same: seq<TripId>, self: TripId)
    requires k < |bs|
    requires bs[k].status != Accepted && b.status != Accepted
    ensures RepeatRouteScore(bs[k := b], same, self) == RepeatRouteScore(bs, same, self)
  {
    if same != [] {
      NonAcceptedRequestIrrelevant(bs, k, b, same[0]);
      RepeatRouteScoreNonAccepted(bs, k, b, same[1..], self);
    }
  }

  /**
   * Pending, rejected and cancelled bookings are invisible: moving a booking
   * between those statuses (or onto another trip) leaves every score as it was.
   */
  lemma NonAcceptedBookingIrrelevant(db: Db, k: nat, b: Booking, id: TripId, now: Timestamp, faults: Faults)
    requires k < |db.requests|
    requires db.requests[k].status != Accepted && b.status != Accepted
    ensures var r := Recompute(db, id, now, faults);
      var r' := Recompute(db.(requests := db.requests[k := b]), id, now, faults);
      r.Success? <==> r'.Success?
    ensures var r := Recompute(db, id, now, faults);
      var r' := Recompute(db.(requests := db.requests[k := b]), id, now, faults);
      r.Success? ==> r'.value.popularityScore == r.value.popularityScore
  {
    if id in db.rides {
      var t := db.rides[id];
      NonAcceptedRequestIrrelevant(db.requests, k, b, id);
      RepeatRouteScoreNonAccepted(db.requests, k, b, Run(db, ActiveOnRoute(DerivedKey(t))), id);
    }
  }
}
