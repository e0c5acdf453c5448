# Trip popularity engine — a Dafny model

This project models the popularity engine of a ride-sharing backend. Each trip
(a document of the `rides` collection) carries a `popularityScore`. The score
is the trip's accepted bookings times two, plus one when the trip is
completed, plus the accepted bookings of every *other* active trip whose
stored `routeKey` equals the trip's own key `"<from name>_<to name>"`.

The model covers these parts:

- the single-trip calculator (`calculateTripPopularity`);
- the batch reconciler over all active trips, run in groups of ten
  (`updatePopularityScoreForAllTrips`);
- the route reconciler (`updatePopularityForRoute`);
- the two event handlers (`onBookingStatusChange`, `onTripCompleted`);
- the two webhook endpoints that validate a request body and start a handler
  in the background.

The document store is an immutable snapshot `Db`. It holds a map of trips, the
order in which a query returns them, and the booking requests. Every operation
is a pure function from a snapshot to a new snapshot and a result. Store
failures are given as a `Faults` value:

- `failing` lists the trips whose recompute throws a store error after the
  point read; within one call a listed trip fails on every recompute and
  any other trip on none;
- `scanError` makes a reconciler's opening query throw.

The server timestamp is a parameter `now`. The calculator invocations a run
makes are recorded as `calls`, so traversal and fan-out can be stated.

Two points of the code are modelled as written:

- The key is built with a template literal. A missing location or a missing
  name therefore renders as the text `undefined`, and a null name as `null`
  (`RouteKeys.NameText`). The key is also not injective: `a_b` + `c` and
  `a` + `b_c` collide.
- The sibling query reads the *stored* `routeKey` of the other trips, which is
  written only by a recompute. A trip that has never been recomputed, or was
  recomputed under other location names, does not count as a sibling
  (`Scenarios.TwoTripRoute`). Only active trips can be siblings, so only
  their keys matter. When every active trip stores the key its names give
  it (`Calculator.ActiveKeysConsistent`), a recompute changes no trip's
  reference score. Both reconcilers then leave every trip they rescore
  holding its reference score (`BatchReconciler.BatchRestoresInvariant`,
  `RouteReconciler.RouteRestoresInvariant`). One batch without failures
  establishes that condition from any consistent store, so two batches in a row
  reconcile every active trip (`BatchReconciler.TwoBatchesReconcile`). When
  an active trip's stored key is stale, a trip's final score depends on
  which siblings were rewritten before it, and the model states only which
  trips are rescored.

## Model

| member | source | states |
|---|---|---|
| RouteKeys.NameText | src/services/popularity.service.js:32 | models `location?.name` inside the template: absent location or name gives `undefined`, a null name `null`, a string itself; its renderings are stated by NameRenderings |
| RouteKeys.DerivedKey | src/services/popularity.service.js:32 | models the key a recompute computes from the trip's own two location names; its shape is stated by RouteKeyParts |
| RouteKeys.NameRenderings | src/services/popularity.service.js:32 | a missing location, a missing name and the literal name `undefined` give the same key; so do a null name and the literal name `null` |
| RouteKeys.RouteKeyParts | src/services/popularity.service.js:32 | the key is the from-name, one underscore, then the to-name: its length and both slices recover the names |
| RouteKeys.KeyCollision | src/services/popularity.service.js:32 | two different name pairs can share a key (`a_b`/`c` and `a`/`b_c`) |
| RouteKeys.KeyInjectiveWithoutSeparator | src/services/popularity.service.js:32 | when neither from-name contains an underscore, equal keys imply equal name pairs |
| Queries.Select | src/services/popularity.service.js:35-39 | a trip is returned exactly when it is in the store and matches the key and status filter; the result keeps the scan order (a subsequence of it) and is no longer than it |
| Queries.SelectDistinct | src/services/popularity.service.js:35-39 | a query over distinct documents returns no document twice |
| Queries.RunDistinct | src/services/popularity.service.js:88-91 | on a consistent store every query result is duplicate-free |
| Queries.AcceptedRequests | src/services/popularity.service.js:20-24 | a booking is returned exactly when it is one of the requests, on the given trip, with status accepted |
| Queries.AcceptedRequestsCount | src/services/popularity.service.js:20-26 | the size of the accepted-bookings query equals an independent count of accepted requests on the trip |
| Queries.NonAcceptedRequestIrrelevant | src/services/popularity.service.js:20-24 | replacing a request that is not accepted by another one that is not accepted leaves the number of accepted bookings on every trip unchanged |
| Calculator.Recompute | src/services/popularity.service.js:8-76 | fails with not-found exactly for a missing trip and with the store's message for a failing one; otherwise it succeeds for that trip and writes only popularityScore, routeKey (derived) and lastPopularityUpdate on that trip |
| Calculator.QueriedScore | src/services/popularity.service.js:19-59 | models the three query-based terms of the score; ScoreFormula states its value against the reference ExpectedScore |
| Calculator.MissingTrip | src/services/popularity.service.js:10-15 | a missing trip fails with the message `Trip <id> not found` |
| Calculator.RepeatRouteScoreCounts | src/services/popularity.service.js:42-55 | summing accepted bookings over distinct same-route trips, skipping the trip itself, equals the accepted count over that set of siblings |
| Calculator.ScoreFormula | src/services/popularity.service.js:19-59 | on a consistent store the written score is 2 × accepted(trip) + [completed] + the accepted bookings of all other active trips whose stored key is the trip's derived key |
| Calculator.RepeatRouteScoreFrame | src/services/popularity.service.js:44-53 | rewriting the trip's own document, whatever it becomes, leaves the repeat-route sum computed for that trip unchanged, since the trip itself is skipped |
| Calculator.ExpectedScoreFrame | src/services/popularity.service.js:19-59 | the reference score reads only the requests, the trips' statuses, the stored keys of active trips and the derived keys (not the raw location names) |
| Calculator.RecomputeKeepsConsistent | src/services/popularity.service.js:62-66 | when every active trip's stored key equals its derived key, a recompute keeps that so and changes nothing the reference score reads |
| Calculator.RecomputeKeepsExpected | src/services/popularity.service.js:19-66 | when every active trip's stored key equals its derived key, a recompute keeps that so, changes no trip's reference score, and leaves its trip holding its reference score |
| Calculator.RecomputeIdempotent | src/services/popularity.service.js:19-66 | recomputing twice with no change in between, the second call under its own store faults, fails with its own error when those faults hit the trip and otherwise writes the same score and key again; only the timestamp differs |
| Calculator.NonAcceptedBookingIrrelevant | src/services/popularity.service.js:20-24 | replacing a pending, rejected or cancelled booking by another such booking (any trip) changes neither whether a recompute succeeds nor its score |
| Chunking.SlicesFrom | src/services/popularity.service.js:107-111 | the groups concatenate back to the input; each group has 1 to size elements, all but the last exactly size; the group count is the ceiling of length/size |
| Chunking.ChunksPartition | src/services/popularity.service.js:107-111 | the groups of ten partition the active trips in order, with no trip lost or repeated |
| BatchReconciler.StepFacts | src/services/popularity.service.js:112-132 | one trip of a group: a success adds one success and rescores that trip alone; a failure adds one failure with the trip's id and message and leaves the store as it was |
| BatchReconciler.RunGroupsFlatten | src/services/popularity.service.js:110-120 | processing the groups one after the other is the same as processing their concatenation in order |
| BatchReconciler.RunTripsAccounting | src/services/popularity.service.js:122-132 | after a run the errors are the earlier errors followed by one entry per failing trip in order; success plus failed grows by the number of trips; the calls are the trips in order |
| BatchReconciler.RunTripsEffect | src/services/popularity.service.js:110-120 | over distinct trips, each non-failing trip ends rescored and every other trip is unchanged |
| BatchReconciler.RunTripsRestores | src/services/popularity.service.js:110-132 | over distinct trips taken in any order, on a store whose active trips store their derived keys, a pass keeps that so, keeps every reference score, and leaves each non-failing trip holding its reference score |
| BatchReconciler.ReconcileAll | src/services/popularity.service.js:83-160 | models the batch reconciler; its contract is stated by BatchFatal, BatchEmpty, BatchTraversal, BatchAccounting, BatchEffect, BatchRestoresInvariant and TwoBatchesReconcile |
| BatchReconciler.BatchIsOnePass | src/services/popularity.service.js:106-139 | the grouped batch run equals one pass over the active trips in query order |
| BatchReconciler.BatchEmpty | src/services/popularity.service.js:88-96 | the early "updatedCount 0" result occurs exactly when no trip is active, and then nothing is written or called |
| BatchReconciler.BatchFatal | src/services/popularity.service.js:156-159 | a failing opening query is rethrown, with no call and no write |
| BatchReconciler.BatchTraversal | src/services/popularity.service.js:88-120 | the calculator is called once on each active trip, in query order, and on no other trip |
| BatchReconciler.BatchAccounting | src/services/popularity.service.js:100-155 | the summary reports the number of active trips, failures equal to the failing active trips (with their messages, in order) and successes for the rest |
| BatchReconciler.BatchEffect | src/services/popularity.service.js:108-132 | every active non-failing trip ends rescored; failing and inactive trips are unchanged; no document is added or removed |
| BatchReconciler.BatchRestoresInvariant | src/services/popularity.service.js:83-160 | on a consistent store whose active trips store their derived keys, no reference score changes, and every active trip whose recompute succeeds ends holding its reference score |
| BatchReconciler.BatchEstablishesKeys | src/services/popularity.service.js:83-139 | a batch in which no active recompute fails leaves every active trip storing its derived key, from any consistent store |
| BatchReconciler.TwoBatchesReconcile | src/services/popularity.service.js:83-160 | two such batches in a row, from any consistent store, leave every active trip holding its reference score |
| BatchReconciler.FailedTripsSingle | src/services/popularity.service.js:122-131 | among distinct trips with exactly one failing, the error list holds exactly that trip's entry |
| BatchReconciler.BatchSingleFailure | src/services/popularity.service.js:112-155 | one failing active trip does not abort the batch: one failure with its message, every other active trip a success |
| RouteReconciler.FirstFailing | src/services/popularity.service.js:179-181 | the position of the first failing trip: none before it fails, and it fails unless it is the end |
| RouteReconciler.Attempted | src/services/popularity.service.js:179-182 | the trips reached by the loop are the prefix up to and including the first failing trip |
| RouteReconciler.SequentialShape | src/services/popularity.service.js:179-182 | the loop adds and removes no document |
| RouteReconciler.SequentialCalls | src/services/popularity.service.js:179-182 | the loop calls the calculator on the trips in order up to and including the first failing one |
| RouteReconciler.SequentialError | src/services/popularity.service.js:179-188 | the loop throws exactly the first failing trip's store error, and nothing when none fails |
| RouteReconciler.SequentialEffect | src/services/popularity.service.js:179-182 | trips before the first failure end rescored; the failing trip, later trips and unlisted trips are unchanged |
| RouteReconciler.SequentialIsBatchPrefix | src/services/popularity.service.js:179-182 | up to its first failure the loop writes what a one-by-one pass over the trips before that failure writes |
| RouteReconciler.ReconcileRoute | src/services/popularity.service.js:166-189 | models the route reconciler; its contract is stated by RouteFatal, RouteOutcome, RouteEffect and RouteRestoresInvariant |
| RouteReconciler.RouteFatal | src/services/popularity.service.js:170-187 | a failing opening query is rethrown, with no call and no write |
| RouteReconciler.RouteOutcome | src/services/popularity.service.js:166-188 | the query uses `from_to`; the result is success exactly when no matching trip fails, then reporting every matching trip and the key; otherwise the first failure's error |
| RouteReconciler.RouteEffect | src/services/popularity.service.js:170-182 | on a consistent store, the matching trips before the first failure end rescored and every other trip is unchanged; a failing query changes nothing |
| RouteReconciler.RouteRestoresInvariant | src/services/popularity.service.js:166-189 | on a consistent store whose active trips store their derived keys, no reference score changes, and every matching trip before the first failing one ends holding its reference score |
| Events.OnBookingStatusChange | src/services/popularity.service.js:195-211 | models the booking handler; its contract is stated by BookingStatusChangeEffect |
| Events.OnTripCompleted | src/services/popularity.service.js:216-234 | models the completion handler; its contract is stated by TripCompletedFailure, TripCompletedWithoutLocations, TripCompletedFanOut, TripCompletedRouteQueryFails and TripCompletedRouteSet |
| Events.BookingStatusChangeEffect | src/services/popularity.service.js:195-211 | the trip is recomputed exactly when the new status is accepted or cancelled; otherwise, or when the recompute fails, the store is unchanged; on success the trip holds the formula's score and its derived key |
| Events.TripCompletedFailure | src/services/popularity.service.js:216-219 | when the trip cannot be recomputed the error is swallowed and nothing else happens |
| Events.TripCompletedWithoutLocations | src/services/popularity.service.js:222-230 | without both location sub-documents only the trip itself is recomputed |
| Events.TripCompletedFanOut | src/services/popularity.service.js:216-230 | after its own recompute the trip's route is reconciled: the calls are the trip, then the route's active trips up to and including the first failing one, and all of them when none fails; on a consistent store an active trip is on its own route, so when no route trip fails it is recomputed twice |
| Events.TripCompletedRouteQueryFails | src/services/popularity.service.js:216-233 | when the route query throws, the error is swallowed: only the trip's own recompute happened and its write stays |
| Events.TripCompletedRouteSet | src/services/popularity.service.js:216-230 | on a consistent store the refreshed route set is the trip's siblings, plus the trip itself when it is active |
| Webhooks.BookingStatusChangedHook | src/routes/Webhooks.routes.js:32-61 | replies 200 and dispatches exactly when all three fields are present and the status is accepted, rejected or cancelled; otherwise 400, with the missing-fields message when a field is absent or empty; the dispatched event carries the body's fields |
| Webhooks.TripCompletedHook | src/routes/Webhooks.routes.js:78-97 | replies 200 and dispatches the completion exactly when tripId is present; otherwise 400 |
| Webhooks.Deliver | src/routes/Webhooks.routes.js:53-55 | models starting the dispatched handler in the background (also lines 90-92); RejectedDispatchedButInert and ValidBookingEventRecomputesOnce state what it does |
| Webhooks.PendingRefused | src/routes/Webhooks.routes.js:44-49 | the status `pending` is refused with 400 and nothing is dispatched |
| Webhooks.InvalidStatusRefused | src/routes/Webhooks.routes.js:44-49 | a complete body with a status outside the three allowed gets 400 with the invalid-status message |
| Webhooks.RejectedDispatchedButInert | src/routes/Webhooks.routes.js:53-61 | `rejected` is accepted (200, dispatched), but its handler calls nothing and changes nothing |
| Webhooks.ValidBookingEventRecomputesOnce | src/routes/Webhooks.routes.js:53-55 | a valid accepted or cancelled event leads to exactly one recompute of its trip |
| Scenarios.TwoTripRoute | src/services/popularity.service.js:35-59 | on a two-trip route, trip a gains b's accepted bookings exactly when b is active and stores the shared key |
| Scenarios.WorkedExample | src/services/popularity.service.js:19-59 | a completed trip with three accepted bookings and a scheduled one with two, sharing a stored key, score 9 and 7 |

## Left out

- The Firestore client, the query execution engine and `FieldValue.serverTimestamp()` are not modelled. The store is a snapshot value, and the timestamp is the parameter `now`, the same for every write of one call.
- The concurrency inside a batch group (`Promise.all`) is not modelled. A group runs sequentially in group order. A real interleaving could make one trip's query see more or fewer of its siblings' keys.
- Console logging, the progress messages and the error dump are not modelled. They have no effect on results.
- The point read, the two queries and the re-read in `onTripCompleted` cannot fail separately. Only a whole failing recompute and a failing opening query are modelled. The re-read always sees the trip the recompute just wrote.
- Store failures are fixed per trip for one call of a reconciler or handler: a trip in `failing` fails on every recompute of that call and any other trip on none. Transient failures are not modelled, so `onTripCompleted` cannot show the trip's own recompute succeeding and its recompute inside the route refresh then failing. Only `Calculator.RecomputeIdempotent`, which relates two separate calls, takes a separate `Faults` value for each.
- Writes by other clients during a run are not modelled: deletions and booking changes between a reconciler's opening query and a recompute. In the program a trip deleted in between fails with `Trip <id> not found`; the batch counts that as a failure and the route loop stops on it.
- Trip statuses other than scheduled, started, completed and cancelled are not modelled, and neither are booking statuses other than pending, accepted, rejected and cancelled.
- Location names that are numbers, booleans or objects are not modelled. A name is missing, null or a string.
- Webhook body fields that are JSON values other than strings (numbers, booleans, objects) are not modelled. A field is either absent or a string, and the empty string is falsy.
- The 500 branches of both webhooks are not modelled. They cannot be reached once the JSON parser has produced a body object. Errors raised by the background handler are swallowed there.
- The cron schedule (`src/cron/popularity.cron.js`), the admin popularity routes, authentication, uploads and the express app are not part of this model.
- BatchReconciler.BatchEffect: states which trips are rescored, but not the score each trip ends with. BatchRestoresInvariant states that score when every active trip's stored key equals its derived key. When an active trip's stored key is stale, a trip's score depends on which siblings the run rewrote before it, and no closed form is stated.
- RouteReconciler.RouteEffect: states which trips are rescored, but not their final scores. RouteRestoresInvariant states them when every active trip's stored key equals its derived key. When an active trip's stored key is stale, a trip's score depends on which siblings the loop rewrote before it in query order, and no closed form is stated.
