/** The score formula on a route served by two trips. */
module Scenarios {
  import opened Common
  import opened Records
  import opened RouteKeys
  import opened Queries
  import opened Calculator

  /**
   * Trip `a` and trip `b` share the derived key `key` and no other active trip
   * stores that key. Then `a` gains one point per accepted booking of `b`
   * exactly when `b`'s STORED key is `key` and `b` is active: a trip never
   * recomputed yet (no stored key) or cancelled adds nothing.
   */
  lemma TwoTripRoute(db: Db, a: TripId, b: TripId, now: Timestamp, faults: Faults)
    requires Valid(db)
    requires a in db.rides && b in db.rides && a != b
    requires DerivedKey(db.rides[a]) == DerivedKey(db.rides[b])
    requires forall x :: x in db.rides && x != a && x != b ==>
      !Matches(db.rides[x], ActiveOnRoute(DerivedKey(db.rides[a])))
    ensures var r := Recompute(db, a, now, faults);
      var counted := Matches(db.rides[b], ActiveOnRoute(DerivedKey(db.rides[a])));
      r.Success? ==>
        r.value.popularityScore
          == 2 * AcceptedOn(db.requests, {a})
             + (if db.rides[a].status == Completed then 1 else 0)
             + (if counted then AcceptedOn(db.requests, {b}) else 0)
  {
    var key := DerivedKey(db.rides[a]);
    var counted := Matches(db.rides[b], ActiveOnRoute(key));
    assert Siblings(db, a, key) == if counted then {b} else {} by {
      forall x | x in Siblings(db, a, key) ensures x == b {
      }
    }
    AcceptedOnEmpty(db.requests);
    ScoreFormula(db, a, now, faults);
  }

  /**
   * The worked example: A completed with three accepted bookings, B
   * scheduled with two, both storing the shared key: score(A) = 2*3 + 1 + 2
   * = 9 and score(B) = 2*2 + 0 + 3 = 7.
   */
  lemma WorkedExample(db: Db, a: TripId, b: TripId, now: Timestamp, faults: Faults)
    requires Valid(db)
    requires a in db.rides && b in db.rides && a != b
    requires DerivedKey(db.rides[a]) == DerivedKey(db.rides[b])
    requires db.rides[a].routeKey == Some(DerivedKey(db.rides[a])) && db.rides[b].routeKey == db.rides[a].routeKey
    requires forall x :: x in db.rides && x != a && x != b ==>
      !Matches(db.rides[x], ActiveOnRoute(DerivedKey(db.rides[a])))
    requires db.rides[a].status == Completed && db.rides[b].status == Scheduled
    requires AcceptedOn(db.requests, {a}) == 3 && AcceptedOn(db.requests, {b}) == 2
    ensures var r := Recompute(db, a, now, faults); r.Success? ==> r.value.popularityScore == 9
    ensures var r := Recompute(db, b, now, faults); r.Success? ==> r.value.popularityScore == 7
  {
    TwoTripRoute(db, a, b, now, faults);
    TwoTripRoute(db, b, a, now, faults);
  }
}
