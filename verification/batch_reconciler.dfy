/**
 * The batch reconciler: recompute every active trip, in groups of ten taken
 * in query order, catching and counting each trip's failure.
 */
module BatchReconciler {
  import opened Common
  import opened Records
  import opened Queries
  import opened Calculator
  import opened Chunking

  const BatchSize: nat := 10

  /** One `{tripId, error}` entry of the report. */
  datatype TripError = TripError(tripId: TripId, error: string)

  /** The running counters of the batch. */
  datatype Tally = Tally(success: nat, failed: nat, errors: seq<TripError>)

  /** The store, the counters, and the trips handed to the calculator so far. */
  datatype BatchState = BatchState(db: Db, tally: Tally, calls: seq<TripId>)

  datatype BatchReport =
    | NothingToUpdate  // no active trip: `{success: true, updatedCount: 0}`
    | Summary(totalTrips: nat, successCount: nat, failedCount: nat, errors: seq<TripError>)

  /** The store after the batch, the calculator calls in order, and what the batch returns or throws. */
  datatype BatchRun = BatchRun(db: Db, calls: seq<TripId>, outcome: Result<BatchReport, Error>)

  /** Recompute one trip, turning a failure into a counted error entry. */
  function Step(st: BatchState, id: TripId, now: Timestamp, faults: Faults): BatchState {
    match Recompute(st.db, id, now, faults)
    case Success(r) =>
      BatchState(r.db, st.tally.(success := st.tally.success + 1), st.calls + [id])
    case Failure(e) =>
      BatchState(st.db, Tally(st.tally.success, st.tally.failed + 1, st.tally.errors + [TripError(id, Message(e))]),
                 st.calls + [id])
  }

  /** Process the trips of one group, in order. */
  function RunTrips(st: BatchState, ids: seq<TripId>, now: Timestamp, faults: Faults): BatchState
    decreases |ids|
  {
    if ids == [] then st else RunTrips(Step(st, ids[0], now, faults), ids[1..], now, faults)
  }

  /** Process the groups one after the other. */
  function RunGroups(st: BatchState, gs: seq<seq<TripId>>, now: Timestamp, faults: Faults): BatchState
    decreases |gs|
  {
    if gs == [] then st else RunGroups(RunTrips(st, gs[0], now, faults), gs[1..], now, faults)
  }

  /** The starting state: an untouched store and zero counters. */
  function Start(db: Db): BatchState {
    BatchState(db, Tally(0, 0, []), [])
  }

  /** Reconcile every active trip of the snapshot. */
  function ReconcileAll(db: Db, now: Timestamp, faults: Faults): BatchRun {
    if faults.scanError.Some? then BatchRun(db, [], Failure(StoreError(faults.scanError.value)))
    else
      var active := Run(db, ActiveTrips);
      if active == [] then BatchRun(db, [], Success(NothingToUpdate))
      else
        var st := RunGroups(Start(db), Chunks(active, BatchSize), now, faults);
        BatchRun(st.db, st.calls, Success(Summary(|active|, st.tally.success, st.tally.failed, st.tally.errors)))
  }

  /** Reference: the error entries of the trips among `ids` that fail, in order. */
  function FailedTrips(ids: seq<TripId>, failing: map<TripId, string>): (r: seq<TripError>)
    ensures |r| <= |ids|
  {
    if ids == [] then []
    else if ids[0] in failing then [TripError(ids[0], failing[ids[0]])] + FailedTrips(ids[1..], failing)
    else FailedTrips(ids[1..], failing)
  }

  /**
   * One step on an existing trip: its outcome depends only on the fault
   * oracle; a failure leaves the store as it was, a success rescores that
   * trip alone.
   */
  lemma StepFacts(st: BatchState, id: TripId, now: Timestamp, faults: Faults)
    requires id in st.db.rides
    ensures var st' := Step(st, id, now, faults);
      && SameShape(st.db, st'.db)
      && (id in faults.failing ==> st'.db == st.db)
      && (id !in faults.failing ==>
            && st'.db.rides[id].popularityScore.Some?
            && PointUpdate(st.db, st'.db, id, st'.db.rides[id].popularityScore.value, now))
      && st'.calls == st.calls + [id]
      && st'.tally == if id in faults.failing
         then Tally(st.tally.success, st.tally.failed + 1, st.tally.errors + [TripError(id, faults.failing[id])])
         else st.tally.(success := st.tally.success + 1)
  {
  }

  lemma {:induction false} RunTripsConcat(st: BatchState, a: seq<TripId>, b: seq<TripId>, now: Timestamp, faults: Faults)
    ensures RunTrips(st, a + b, now, faults) == RunTrips(RunTrips(st, a, now, faults), b, now, faults)
    decreases |a|
  {
    if a != [] {
      assert (a + b)[1..] == a[1..] + b;
      RunTripsConcat(Step(st, a[0], now, faults), a[1..], b, now, faults);
    } else {
      assert a + b == b;
    }
  }

  /** Processing group by group is processing the concatenated groups one trip at a time. */
  lemma {:induction false} RunGroupsFlatten(st: BatchState, gs: seq<seq<TripId>>, now: Timestamp, faults: Faults)
    ensures RunGroups(st, gs, now, faults) == RunTrips(st, Flatten(gs), now, faults)
    decreases |gs|
  {
    if gs != [] {
      RunGroupsFlatten(RunTrips(st, gs[0], now, faults), gs[1..], now, faults);
      RunTripsConcat(st, gs[0], Flatten(gs[1..]), now, faults);
    }
  }

  /**
   * Failure accounting: every trip is handed to the calculator once, in
   * order; each failing trip adds one error entry, every other one a success.
   */
  lemma {:induction false} RunTripsAccounting(st: BatchState, ids: seq<TripId>, now: Timestamp, faults: Faults)
    requires forall x :: x in ids ==> x in st.db.rides
    ensures var r := RunTrips(st, ids, now, faults);
      && SameShape(st.db, r.db)
      && r.calls == st.calls + ids
      && r.tally.errors == st.tally.errors + FailedTrips(ids, faults.failing)
      && r.tally.failed == st.tally.failed + |FailedTrips(ids, faults.failing)|
      && r.tally.success + r.tally.failed == st.tally.success + st.tally.failed + |ids|
    decreases |ids|
  {
    if ids == [] {
      assert st.calls + ids == st.calls;
      assert st.tally.errors + FailedTrips(ids, faults.failing) == st.tally.errors;
    } else {
      var st' := Step(st, ids[0], now, faults);
      StepFacts(st, ids[0], now, faults);
      assert forall x :: x in ids[1..] ==> x in st'.db.rides by {
        forall x | x in ids[1..] ensures x in st'.db.rides {
          assert x in ids;
        }
      }
      RunTripsAccounting(st', ids[1..], now, faults);
      assert RunTrips(st, ids, now, faults) == RunTrips(st', ids[1..], now, faults);
      assert ids == [ids[0]] + ids[1..];
      SeqAssoc(st.calls, [ids[0]], ids[1..]);
      var f, f' := FailedTrips(ids, faults.failing), FailedTrips(ids[1..], faults.failing);
      if ids[0] in faults.failing {
        assert f == [TripError(ids[0], faults.failing[ids[0]])] + f';
        SeqAssoc(st.tally.errors, [TripError(ids[0], faults.failing[ids[0]])], f');
      } else {
        assert f == f';
      }
    }
  }

  /**
   * Effect on the store: each non-failing trip of `ids` ends rescored, every
   * other trip ends as it started.
   */
  lemma {:induction false} RunTripsEffect(st: BatchState, ids: seq<TripId>, now: Timestamp, faults: Faults)
    requires Distinct(ids)
    requires forall x :: x in ids ==> x in st.db.rides
    ensures var r := RunTrips(st, ids, now, faults);
      && SameShape(st.db, r.db)
      && forall x :: x in st.db.rides ==>
           if x in ids && x !in faults.failing then Rescored(st.db.rides[x], r.db.rides[x], now)
           else r.db.rides[x] == st.db.rides[x]
    decreases |ids|
  {
    if ids != [] {
      var st' := Step(st, ids[0], now, faults);
      DistinctTail(ids);
      assert forall x :: x in ids[1..] ==> x in ids;
      RunTripsEffect(st', ids[1..], now, faults);
    }
  }

  /** Nothing to do: with no active trip the batch reports zero and touches nothing. */
  lemma BatchEmpty(db: Db, now: Timestamp, faults: Faults)
    requires Valid(db)
    requires faults.scanError.None?
    ensures var r := ReconcileAll(db, now, faults);
      (r.outcome == Success(NothingToUpdate)) <==> (forall x :: x in db.rides ==> !IsActive(db.rides[x].status))
    ensures var r := ReconcileAll(db, now, faults);
      r.outcome == Success(NothingToUpdate) ==> r.db == db && r.calls == []
  {
    var active := Run(db, ActiveTrips);
    if active != [] {
      assert active[0] in active;
      assert ReconcileAll(db, now, faults).outcome.value.Summary?;
    } else {
      forall x | x in db.rides
        ensures !IsActive(db.rides[x].status)
      {
        assert x in db.order && x !in active;
      }
    }
  }

  /** The initial query failing is the only way the batch itself throws. */
  lemma BatchFatal(db: Db, now: Timestamp, faults: Faults)
    ensures var r := ReconcileAll(db, now, faults);
      r.outcome.Failure? <==> faults.scanError.Some?
    ensures var r := ReconcileAll(db, now, faults);
      r.outcome.Failure? ==> r.db == db && r.calls == [] && r.outcome.error == StoreError(faults.scanError.value)
  {
  }

  /** With active trips, the batch is one trip-by-trip pass over the query result. */
  lemma BatchIsOnePass(db: Db, now: Timestamp, faults: Faults)
    requires faults.scanError.None?
    requires Run(db, ActiveTrips) != []
    ensures var active := Run(db, ActiveTrips);
      var st := RunTrips(Start(db), active, now, faults);
      ReconcileAll(db, now, faults)
        == BatchRun(st.db, st.calls, Success(Summary(|active|, st.tally.success, st.tally.failed, st.tally.errors)))
  {
    var active := Run(db, ActiveTrips);
    ChunksPartition(active, BatchSize);
    RunGroupsFlatten(Start(db), Chunks(active, BatchSize), now, faults);
  }

  /**
   * Batch traversal: every active trip is handed to the calculator exactly
   * once, in query order.
   */
  lemma BatchTraversal(db: Db, now: Timestamp, faults: Faults)
    requires Valid(db)
    requires faults.scanError.None?
    requires Run(db, ActiveTrips) != []
    ensures var r := ReconcileAll(db, now, faults);
      && r.calls == Run(db, ActiveTrips)
      && Distinct(r.calls)
      && Elements(r.calls) == set x | x in db.rides && IsActive(db.rides[x].status)
  {
    var active := Run(db, ActiveTrips);
    RunDistinct(db, ActiveTrips);
    BatchIsOnePass(db, now, faults);
    RunTripsAccounting(Start(db), active, now, faults);
    assert [] + active == active;
    assert Elements(active) == set x | x in db.rides && IsActive(db.rides[x].status);
  }

  /**
   * Batch accounting: the counters add up to the total and the error list
   * holds exactly the failing trips, in processing order.
   */
  lemma BatchAccounting(db: Db, now: Timestamp, faults: Faults)
    requires faults.scanError.None?
    requires Run(db, ActiveTrips) != []
    ensures var r := ReconcileAll(db, now, faults);
      var active := Run(db, ActiveTrips);
      var failed := FailedTrips(active, faults.failing);
      r.outcome == Success(Summary(|active|, |active| - |failed|, |failed|, failed))
  {
    var active := Run(db, ActiveTrips);
    var failed := FailedTrips(active, faults.failing);
    var st := RunTrips(Start(db), active, now, faults);
    BatchIsOnePass(db, now, faults);
    RunTripsAccounting(Start(db), active, now, faults);
    assert [] + failed == failed;
    assert st.tally == Tally(|active| - |failed|, |failed|, failed);
  }

  /**
   * A failing trip never stops the others: after the batch every active,
   * non-failing trip is rescored and every other trip is untouched.
   */
  lemma BatchEffect(db: Db, now: Timestamp, faults: Faults)
    requires Valid(db)
    ensures var r := ReconcileAll(db, now, faults);
      && SameShape(db, r.db)
      && forall x :: x in db.rides ==>
           if faults.scanError.None? && IsActive(db.rides[x].status) && x !in faults.failing
           then Rescored(db.rides[x], r.db.rides[x], now)
           else r.db.rides[x] == db.rides[x]
  {
    var active := Run(db, ActiveTrips);
    if faults.scanError.None? && active != [] {
      BatchIsOnePass(db, now, faults);
      RunDistinct(db, ActiveTrips);
      RunTripsEffect(Start(db), active, now, faults);
    } else if faults.scanError.None? {
      BatchEmpty(db, now, faults);
    }
  }

  /** Among distinct trips, when exactly `k` fails, the error list is `k`'s entry alone. */
  lemma {:induction false} FailedTripsSingle(ids: seq<TripId>, failing: map<TripId, string>, k: TripId)
    requires Distinct(ids) && k in ids
    requires forall x :: x in ids ==> (x in failing <==> x == k)
    ensures FailedTrips(ids, failing) == [TripError(k, failing[k])]
  {
    DistinctTail(ids);
    if ids[0] == k {
      NoneFailed(ids[1..], failing);
    } else {
      FailedTripsSingle(ids[1..], failing, k);
    }
  }

  lemma {:induction false} NoneFailed(ids: seq<TripId>, failing: map<TripId, string>)
    requires forall x :: x in ids ==> x !in failing
    ensures FailedTrips(ids, failing) == []
  {
    if ids != [] {
      NoneFailed(ids[1..], failing);
    }
  }

  /**
   * Partial failure: when exactly one active trip `k` fails, the batch still
   * returns normally, reporting one failure (k's) and every other trip as a
   * success.
   */
  lemma BatchSingleFailure(db: Db, k: TripId, now: Timestamp, faults: Faults)
    requires Valid(db)
    requires faults.scanError.None?
    requires k in db.rides && IsActive(db.rides[k].status)
    requires forall x :: x in db.rides && IsActive(db.rides[x].status) ==> (x in faults.failing <==> x == k)
    ensures var n := |Run(db, ActiveTrips)|;
      n >= 1 && ReconcileAll(db, now, faults).outcome
        == Success(Summary(n, n - 1, 1, [TripError(k, faults.failing[k])]))
  {
    var active := Run(db, ActiveTrips);
    assert k in db.order;
    assert k in active;
    forall x | x in active
      ensures x in faults.failing <==> x == k
    {
      assert x in db.rides && Matches(db.rides[x], ActiveTrips);
    }
    RunDistinct(db, ActiveTrips);
    FailedTripsSingle(active, faults.failing, k);
    BatchAccounting(db, now, faults);
  }

  /**
   * Over distinct trips, taken in any order, of a store whose active trips
   * store their derived keys, a run keeps that so, keeps every reference
   * score, and leaves each non-failing trip of the run holding its
   * reference score.
   */
  lemma {:induction false} RunTripsRestores(st: BatchState, ids: seq<TripId>, now: Timestamp, faults: Faults)
    requires Valid(st.db) && ActiveKeysConsistent(st.db)
    requires Distinct(ids)
    requires forall x :: x in ids ==> x in st.db.rides
    ensures var r := RunTrips(st, ids, now, faults);
      && Valid(r.db) && ActiveKeysConsistent(r.db)
      && (forall x :: x in st.db.rides ==> x in r.db.rides && ExpectedScore(r.db, x) == ExpectedScore(st.db, x))
      && (forall x :: x in ids && x !in faults.failing ==> Reconciled(r.db, x))
    decreases |ids|
  {
    if ids != [] {
      var id := ids[0];
      var st' := Step(st, id, now, faults);
      StepFacts(st, id, now, faults);
      if id !in faults.failing {
        RecomputeKeepsExpected(st.db, id, now, faults);
      }
      DistinctTail(ids);
      assert forall x :: x in ids[1..] ==> x in ids;
      RunTripsRestores(st', ids[1..], now, faults);
      RunTripsEffect(st', ids[1..], now, faults);
      var r := RunTrips(st', ids[1..], now, faults);
      assert r == RunTrips(st, ids, now, faults);
      if id !in faults.failing {
        assert id !in ids[1..];
        assert r.db.rides[id] == st'.db.rides[id];
        assert Reconciled(r.db, id);
      }
    }
  }

  /**
   * The batch restores the score invariant: on a consistent store whose
   * active trips store their derived keys, no reference score changes and,
   * when the opening query succeeds, every active trip whose recompute
   * succeeds ends holding its reference score.
   */
  lemma BatchRestoresInvariant(db: Db, now: Timestamp, faults: Faults)
    requires Valid(db) && ActiveKeysConsistent(db)
    ensures var r := ReconcileAll(db, now, faults);
      && ActiveKeysConsistent(r.db)
      && (forall x :: x in db.rides ==> x in r.db.rides && ExpectedScore(r.db, x) == ExpectedScore(db, x))
      && (forall x :: x in db.rides && faults.scanError.None? && IsActive(db.rides[x].status) && x !in faults.failing
            ==> Reconciled(r.db, x))
  {
    var active := Run(db, ActiveTrips);
    if faults.scanError.None? && active != [] {
      BatchIsOnePass(db, now, faults);
      RunDistinct(db, ActiveTrips);
      RunTripsRestores(Start(db), active, now, faults);
      assert forall x :: x in db.rides && IsActive(db.rides[x].status) ==> x in db.order && x in active;
    } else if faults.scanError.None? {
      BatchEmpty(db, now, faults);
    }
  }

  /**
   * One batch whose opening query and active recomputes all succeed leaves
   * every active trip storing its derived key, whatever keys it started with.
   */
  lemma BatchEstablishesKeys(db: Db, now: Timestamp, faults: Faults)
    requires Valid(db)
    requires faults.scanError.None?
    requires forall x :: x in db.rides && IsActive(db.rides[x].status) ==> x !in faults.failing
    ensures var r := ReconcileAll(db, now, faults);
      Valid(r.db) && ActiveKeysConsistent(r.db)
  {
    BatchEffect(db, now, faults);
  }

  /**
   * Two such batches in a row, from any consistent store, leave every active
   * trip holding its reference score.
   */
  lemma TwoBatchesReconcile(db: Db, now1: Timestamp, now2: Timestamp, faults: Faults)
    requires Valid(db)
    requires faults.scanError.None?
    requires forall x :: x in db.rides && IsActive(db.rides[x].status) ==> x !in faults.failing
    ensures var r1 := ReconcileAll(db, now1, faults);
      var r2 := ReconcileAll(r1.db, now2, faults);
      forall x :: x in r2.db.rides && IsActive(r2.db.rides[x].status) ==> Reconciled(r2.db, x)
  {
    var r1 := ReconcileAll(db, now1, faults);
    BatchEffect(db, now1, faults);
    BatchEstablishesKeys(db, now1, faults);
    BatchRestoresInvariant(r1.db, now2, faults);
    BatchEffect(r1.db, now2, faults);
  }
}
