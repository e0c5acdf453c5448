/**
 * The route reconciler: recompute, one after the other and in query order,
 * every active trip whose stored key is the route's key; the first failure
 * is thrown and the remaining trips are left alone.
 */
module RouteReconciler {
  import opened Common
  import opened Records
  import opened RouteKeys
  import opened Queries
  import opened Calculator
  import BatchReconciler

  /** What the reconciler returns: `{updatedTrips, routeKey}`. */
  datatype RouteReport = RouteReport(updatedTrips: nat, routeKey: string)

  /** The store afterwards (earlier writes persist when a later trip throws), the calculator calls, the outcome. */
  datatype RouteRun = RouteRun(db: Db, calls: seq<TripId>, outcome: Result<RouteReport, Error>)

  /** The state of the sequential loop when it ends. */
  datatype Walk = Walk(db: Db, calls: seq<TripId>, error: Option<Error>)

  /** Recompute `trips` in order, stopping at the first one that throws. */
  function Sequential(db: Db, trips: seq<TripId>, now: Timestamp, faults: Faults): Walk
    decreases |trips|
  {
    if trips == [] then Walk(db, [], None)
    else
      match Recompute(db, trips[0], now, faults)
      case Failure(e) => Walk(db, [trips[0]], Some(e))
      case Success(r) =>
        var w := Sequential(r.db, trips[1..], now, faults);
        w.(calls := [trips[0]] + w.calls)
  }

  /** Reconcile the route from `from` to `to`. */
  function ReconcileRoute(db: Db, from: string, to: string, now: Timestamp, faults: Faults): RouteRun {
    var key := RouteKey(from, to);
    if faults.scanError.Some? then RouteRun(db, [], Failure(StoreError(faults.scanError.value)))
    else
      var trips := Run(db, ActiveOnRoute(key));
      var w := Sequential(db, trips, now, faults);
      RouteRun(w.db, w.calls,
               if w.error.Some? then Failure(w.error.value) else Success(RouteReport(|trips|, key)))
  }

  /** The position of the first failing trip, or `|trips|` when none fails. */
  function FirstFailing(trips: seq<TripId>, failing: map<TripId, string>): (k: nat)
    ensures k <= |trips|
    ensures forall j :: 0 <= j < k ==> trips[j] !in failing
    ensures k < |trips| ==> trips[k] in failing
  {
    if trips == [] then 0
    else if trips[0] in failing then 0
    else 1 + FirstFailing(trips[1..], failing)
  }

  /** One successful step: the loop continues on the written store with the rest of the trips. */
  lemma SequentialStep(db: Db, trips: seq<TripId>, now: Timestamp, faults: Faults)
    requires trips != [] && trips[0] in db.rides && trips[0] !in faults.failing
    ensures var db' := Recompute(db, trips[0], now, faults).value.db;
      var w' := Sequential(db', trips[1..], now, faults);
      && SameShape(db, db')
      && Sequential(db, trips, now, faults) == w'.(calls := [trips[0]] + w'.calls)
  {
  }

  /** The loop keeps every document of the store. */
  lemma {:induction false} SequentialShape(db: Db, trips: seq<TripId>, now: Timestamp, faults: Faults)
    requires forall x :: x in trips ==> x in db.rides
    ensures SameShape(db, Sequential(db, trips, now, faults).db)
    decreases |trips|
  {
    if trips != [] && trips[0] !in faults.failing {
      var db' := Recompute(db, trips[0], now, faults).value.db;
      SequentialStep(db, trips, now, faults);
      assert forall x :: x in trips[1..] ==> x in db'.rides by {
        forall x | x in trips[1..] ensures x in db'.rides {
          assert x in trips;
        }
      }
      SequentialShape(db', trips[1..], now, faults);
    }
  }

  /** The trips up to and including the first failing one. */
  function Attempted(trips: seq<TripId>, failing: map<TripId, string>): (r: seq<TripId>)
    ensures r == trips[..Min(FirstFailing(trips, failing) + 1, |trips|)]
  {
    if trips == [] then []
    else if trips[0] in failing then (assert trips[..1] == [trips[0]]; [trips[0]])
    else
      var rest := Attempted(trips[1..], failing);
      PrefixCons(trips, Min(FirstFailing(trips[1..], failing) + 1, |trips| - 1));
      [trips[0]] + rest
  }

  /** The loop hands the calculator the trips up to and including the first failing one. */
  lemma {:induction false} SequentialCalls(db: Db, trips: seq<TripId>, now: Timestamp, faults: Faults)
    requires forall x :: x in trips ==> x in db.rides
    ensures Sequential(db, trips, now, faults).calls == Attempted(trips, faults.failing)
    decreases |trips|
  {
    if trips != [] && trips[0] !in faults.failing {
      var db' := Recompute(db, trips[0], now, faults).value.db;
      SequentialStep(db, trips, now, faults);
      assert forall x :: x in trips[1..] ==> x in db'.rides by {
        forall x | x in trips[1..] ensures x in db'.rides {
          assert x in trips;
        }
      }
      SequentialCalls(db', trips[1..], now, faults);
    }
  }

  /** The loop throws exactly the first failing trip's error, and nothing when none fails. */
  lemma {:induction false} SequentialError(db: Db, trips: seq<TripId>, now: Timestamp, faults: Faults)
    requires forall x :: x in trips ==> x in db.rides
    ensures var k := FirstFailing(trips, faults.failing);
      Sequential(db, trips, now, faults).error
        == if k < |trips| then Some(StoreError(faults.failing[trips[k]])) else None
    decreases |trips|
  {
    if trips != [] && trips[0] !in faults.failing {
      var db' := Recompute(db, trips[0], now, faults).value.db;
      SequentialStep(db, trips, now, faults);
      assert forall x :: x in trips[1..] ==> x in db'.rides by {
        forall x | x in trips[1..] ensures x in db'.rides {
          assert x in trips;
        }
      }
      SequentialError(db', trips[1..], now, faults);
    }
  }

  /**
   * The trips before the first failing one end rescored; the failing one and
   * everything after it, and every trip off the list, end as they started.
   */
  lemma {:induction false} SequentialEffect(db: Db, trips: seq<TripId>, now: Timestamp, faults: Faults)
    requires Distinct(trips)
    requires forall x :: x in trips ==> x in db.rides
    ensures var w := Sequential(db, trips, now, faults);
      var k := FirstFailing(trips, faults.failing);
      SameShape(db, w.db) &&
      forall x :: x in db.rides ==>
        if x in trips[..k] then Rescored(db.rides[x], w.db.rides[x], now)
        else w.db.rides[x] == db.rides[x]
    decreases |trips|
  {
    if trips != [] && trips[0] !in faults.failing {
      var db' := Recompute(db, trips[0], now, faults).value.db;
      SequentialStep(db, trips, now, faults);
      DistinctTail(trips);
      assert forall x :: x in trips[1..] ==> x in db'.rides by {
        forall x | x in trips[1..] ensures x in db'.rides {
          assert x in trips;
        }
      }
      SequentialEffect(db', trips[1..], now, faults);
      var k' := FirstFailing(trips[1..], faults.failing);
      PrefixCons(trips, k');
    }
  }

  /**
   * Route reconciler outcome: it uses the key `from + "_" + to`; it succeeds
   * exactly when no matching trip fails, then reporting every matching trip
   * as updated; otherwise it throws the first failing trip's error, having
   * called the calculator on no trip after it.
   */
  lemma RouteOutcome(db: Db, from: string, to: string, now: Timestamp, faults: Faults)
    requires faults.scanError.None?
    ensures var r := ReconcileRoute(db, from, to, now, faults);
      var trips := Run(db, ActiveOnRoute(RouteKey(from, to)));
      var k := FirstFailing(trips, faults.failing);
      && r.calls == Attempted(trips, faults.failing)
      && (r.outcome.Success? <==> forall x :: x in trips ==> x !in faults.failing)
      && (r.outcome.Success? ==> r.outcome.value == RouteReport(|trips|, RouteKey(from, to)))
      && (r.outcome.Failure? ==> k < |trips| && r.outcome.error == StoreError(faults.failing[trips[k]]))
  {
    var trips := Run(db, ActiveOnRoute(RouteKey(from, to)));
    SequentialCalls(db, trips, now, faults);
    SequentialError(db, trips, now, faults);
    SequentialShape(db, trips, now, faults);
  }

  /** A failing opening query is rethrown before any trip is recomputed. */
  lemma RouteFatal(db: Db, from: string, to: string, now: Timestamp, faults: Faults)
    ensures faults.scanError.Some? ==>
      ReconcileRoute(db, from, to, now, faults) == RouteRun(db, [], Failure(StoreError(faults.scanError.value)))
  {
  }

  /** Route reconciler effect on the store, under a consistent snapshot. */
  lemma RouteEffect(db: Db, from: string, to: string, now: Timestamp, faults: Faults)
    requires Valid(db)
    ensures var r := ReconcileRoute(db, from, to, now, faults);
      var trips := Run(db, ActiveOnRoute(RouteKey(from, to)));
      var k := FirstFailing(trips, faults.failing);
      SameShape(db, r.db) &&
      forall x :: x in db.rides ==>
        if faults.scanError.None? && x in trips[..k] then Rescored(db.rides[x], r.db.rides[x], now)
        else r.db.rides[x] == db.rides[x]
  {
    if faults.scanError.None? {
      var trips := Run(db, ActiveOnRoute(RouteKey(from, to)));
      RunDistinct(db, ActiveOnRoute(RouteKey(from, to)));
      SequentialEffect(db, trips, now, faults);
    }
  }

  /**
   * Up to its first failure the loop writes what a batch pass over the
   * trips before that failure writes: the failing trip leaves no trace.
   */
  lemma {:induction false} SequentialIsBatchPrefix(st: BatchReconciler.BatchState, trips: seq<TripId>, now: Timestamp, faults: Faults)
    requires forall x :: x in trips ==> x in st.db.rides
    ensures var k := FirstFailing(trips, faults.failing);
      Sequential(st.db, trips, now, faults).db == BatchReconciler.RunTrips(st, trips[..k], now, faults).db
    decreases |trips|
  {
    var k := FirstFailing(trips, faults.failing);
    if trips != [] && trips[0] !in faults.failing {
      var st' := BatchReconciler.Step(st, trips[0], now, faults);
      BatchReconciler.StepFacts(st, trips[0], now, faults);
      assert forall x :: x in trips[1..] ==> x in trips;
      SequentialIsBatchPrefix(st', trips[1..], now, faults);
      assert trips[..k][1..] == trips[1..][..k - 1];
    } else {
      assert trips[..k] == [];
    }
  }

  /**
   * The route reconciler restores the score invariant on its route: on a
   * consistent store whose active trips store their derived keys, no reference score changes and every
   * matching trip before the first failing one ends holding its reference
   * score.
   */
  lemma RouteRestoresInvariant(db: Db, from: string, to: string, now: Timestamp, faults: Faults)
    requires Valid(db) && ActiveKeysConsistent(db)
    ensures var r := ReconcileRoute(db, from, to, now, faults);
      var trips := Run(db, ActiveOnRoute(RouteKey(from, to)));
      var k := FirstFailing(trips, faults.failing);
      && ActiveKeysConsistent(r.db)
      && (forall x :: x in db.rides ==> x in r.db.rides && ExpectedScore(r.db, x) == ExpectedScore(db, x))
      && (faults.scanError.None? ==> forall x :: x in trips[..k] ==> Reconciled(r.db, x))
  {
    if faults.scanError.None? {
      var trips := Run(db, ActiveOnRoute(RouteKey(from, to)));
      var k := FirstFailing(trips, faults.failing);
      var prefix := trips[..k];
      RunDistinct(db, ActiveOnRoute(RouteKey(from, to)));
      assert Distinct(prefix);
      SequentialIsBatchPrefix(BatchReconciler.Start(db), trips, now, faults);
      BatchReconciler.RunTripsRestores(BatchReconciler.Start(db), prefix, now, faults);
    }
  }
}
