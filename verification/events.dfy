/**
 * The event handlers: booking-status changes and trip completions trigger
 * recomputes; every error is swallowed, so a handler always returns a store.
 */
module Events {
  import opened Common
  import opened Records
  import opened RouteKeys
  import opened Queries
  import opened Calculator
  import opened RouteReconciler

  /** The store after a handler and the trips it handed to the calculator, in order. */
  datatype Handled = Handled(db: Db, calls: seq<TripId>)

  /** The booking statuses that trigger a recompute. */
  predicate Triggers(newStatus: string) {
    newStatus == "accepted" || newStatus == "cancelled"
  }

  /** A booking changed status: recompute its trip when it became accepted or cancelled. */
  function OnBookingStatusChange(db: Db, bookingId: string, newStatus: string, tripId: TripId,
                                 now: Timestamp, faults: Faults): Handled
  {
    if Triggers(newStatus) then
      match Recompute(db, tripId, now, faults)
      case Success(r) => Handled(r.db, [tripId])
      case Failure(_) => Handled(db, [tripId])
    else Handled(db, [])
  }

  /**
   * A trip completed: recompute it, then read it again and, when it has both
   * location sub-documents, reconcile its route.
   */
  function OnTripCompleted(db: Db, tripId: TripId, now: Timestamp, faults: Faults): Handled {
    match Recompute(db, tripId, now, faults)
    case Failure(_) => Handled(db, [tripId])
    case Success(r) =>
      var t := r.db.rides[tripId];
      if t.fromLocation.Some? && t.toLocation.Some? then
        var route := ReconcileRoute(r.db, NameText(t.fromLocation), NameText(t.toLocation), now, faults);
        Handled(route.db, [tripId] + route.calls)
      else Handled(r.db, [tripId])
  }

  /**
   * onBookingStatusChange recomputes exactly when the new status is accepted
   * or cancelled; any other status, or a failing recompute, leaves the store
   * as it was; a successful one writes the reference score.
   */
  lemma BookingStatusChangeEffect(db: Db, bookingId: string, newStatus: string, tripId: TripId,
                                  now: Timestamp, faults: Faults)
    requires Valid(db)
    ensures var h := OnBookingStatusChange(db, bookingId, newStatus, tripId, now, faults);
      && h.calls == (if newStatus == "accepted" || newStatus == "cancelled" then [tripId] else [])
      && (h.db == db <== !Triggers(newStatus) || Recompute(db, tripId, now, faults).Failure?)
      && (Triggers(newStatus) && tripId in db.rides && tripId !in faults.failing ==>
            && tripId in h.db.rides
            && h.db.rides[tripId].popularityScore == Some(ExpectedScore(db, tripId))
            && h.db.rides[tripId].routeKey == Some(DerivedKey(db.rides[tripId])))
  {
    ScoreFormula(db, tripId, now, faults);
  }

  /** onTripCompleted on a trip it cannot recompute: the error is swallowed and nothing else happens. */
  lemma TripCompletedFailure(db: Db, tripId: TripId, now: Timestamp, faults: Faults)
    requires tripId !in db.rides || tripId in faults.failing
    ensures OnTripCompleted(db, tripId, now, faults) == Handled(db, [tripId])
  {
  }

  /** Without both location sub-documents there is no route refresh. */
  lemma TripCompletedWithoutLocations(db: Db, tripId: TripId, now: Timestamp, faults: Faults)
    requires tripId in db.rides && tripId !in faults.failing
    requires db.rides[tripId].fromLocation.None? || db.rides[tripId].toLocation.None?
    ensures var h := OnTripCompleted(db, tripId, now, faults);
      && h.calls == [tripId]
      && h.db == Recompute(db, tripId, now, faults).value.db
  {
  }

  /**
   * Route fan-out: after recomputing the completed trip, onTripCompleted hands
   * the calculator every active trip whose stored key (as written by that
   * first recompute) is the trip's derived key, in query order, up to and
   * including the first failing one. On a consistent store an active trip is
   * on its own route, so when no route trip fails it is recomputed twice.
   */
  lemma TripCompletedFanOut(db: Db, tripId: TripId, now: Timestamp, faults: Faults)
    requires tripId in db.rides && tripId !in faults.failing
    requires db.rides[tripId].fromLocation.Some? && db.rides[tripId].toLocation.Some?
    requires faults.scanError.None?
    ensures var db1 := Recompute(db, tripId, now, faults).value.db;
      var route := Run(db1, ActiveOnRoute(DerivedKey(db.rides[tripId])));
      var h := OnTripCompleted(db, tripId, now, faults);
      && h.calls == [tripId] + Attempted(route, faults.failing)
      && ((forall x :: x in route ==> x !in faults.failing) ==> h.calls == [tripId] + route)
      && (Valid(db) && IsActive(db.rides[tripId].status) ==> tripId in route)
  {
    var db1 := Recompute(db, tripId, now, faults).value.db;
    var t := db1.rides[tripId];
    var key := DerivedKey(db.rides[tripId]);
    var route := Run(db1, ActiveOnRoute(key));
    var rr := ReconcileRoute(db1, NameText(t.fromLocation), NameText(t.toLocation), now, faults);
    assert OnTripCompleted(db, tripId, now, faults) == Handled(rr.db, [tripId] + rr.calls);
    assert RouteKey(NameText(t.fromLocation), NameText(t.toLocation)) == key;
    RouteOutcome(db1, NameText(t.fromLocation), NameText(t.toLocation), now, faults);
    assert rr.calls == Attempted(route, faults.failing);
    if forall x :: x in route ==> x !in faults.failing {
      assert FirstFailing(route, faults.failing) == |route|;
      assert route[..|route|] == route;
    }
    if Valid(db) {
      assert tripId in db1.order;
    }
  }

  /**
   * When the route query throws, the handler swallows the error: only the
   * trip's own recompute happened, and its write stays.
   */
  lemma TripCompletedRouteQueryFails(db: Db, tripId: TripId, now: Timestamp, faults: Faults)
    requires tripId in db.rides && tripId !in faults.failing
    requires faults.scanError.Some?
    ensures OnTripCompleted(db, tripId, now, faults)
         == Handled(Recompute(db, tripId, now, faults).value.db, [tripId])
  {
  }

  /**
   * Under a consistent snapshot the refreshed set is the completed trip (when
   * active) together with its route siblings.
   */
  lemma TripCompletedRouteSet(db: Db, tripId: TripId, now: Timestamp, faults: Faults)
    requires Valid(db)
    requires tripId in db.rides && tripId !in faults.failing
    ensures var db1 := Recompute(db, tripId, now, faults).value.db;
      var key := DerivedKey(db.rides[tripId]);
      Elements(Run(db1, ActiveOnRoute(key)))
        == Siblings(db, tripId, key) + (if IsActive(db.rides[tripId].status) then {tripId} else {})
  {
  }
}
