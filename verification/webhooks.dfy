/**
 * The two webhook endpoints in front of the event handlers, as pure
 * functions from request body to (status code, message, dispatched event).
 */
module Webhooks {
  import opened Common
  import opened Records
  import opened Calculator
  import opened Events

  /** The JSON body of `booking-status-changed`; a field may be absent. */
  datatype BookingBody = BookingBody(bookingId: Option<string>, newStatus: Option<string>, tripId: Option<string>)

  /** The JSON body of `trip-completed`. */
  datatype CompletionBody = CompletionBody(tripId: Option<string>)

  /** An event handed to a handler in the background. */
  datatype Event =
    | BookingStatusChanged(bookingId: string, newStatus: string, tripId: TripId)
    | TripCompleted(tripId: TripId)

  /** The HTTP reply, and the event started in the background, if any. */
  datatype Reply = Reply(status: nat, message: string, dispatched: Option<Event>)

  /** A field counts as present when it is there and not the empty string. */
  predicate Truthy(v: Option<string>) {
    v.Some? && v.value != ""
  }

  const AllowedStatuses: seq<string> := ["accepted", "rejected", "cancelled"]

  const MissingFields := "Missing required fields: bookingId, newStatus, tripId"
  const InvalidStatus := "Invalid status. Must be: accepted, rejected, or cancelled"

  /** POST booking-status-changed. */
  function BookingStatusChangedHook(body: BookingBody): (r: Reply)
    ensures r.status == 200 || r.status == 400
    ensures r.dispatched.Some? <==> r.status == 200
    ensures r.status == 200 <==>
      && Truthy(body.bookingId) && Truthy(body.newStatus) && Truthy(body.tripId)
      && body.newStatus.value in AllowedStatuses
    ensures r.status == 400 && !(Truthy(body.bookingId) && Truthy(body.newStatus) && Truthy(body.tripId))
      ==> r.message == MissingFields
    ensures r.dispatched.Some? ==>
      r.dispatched.value == BookingStatusChanged(body.bookingId.value, body.newStatus.value, body.tripId.value)
  {
    if !Truthy(body.bookingId) || !Truthy(body.newStatus) || !Truthy(body.tripId) then
      Reply(400, MissingFields, None)
    else if body.newStatus.value !in AllowedStatuses then
      Reply(400, InvalidStatus, None)
    else
      Reply(200, "Booking status change processed",
            Some(BookingStatusChanged(body.bookingId.value, body.newStatus.value, body.tripId.value)))
  }

  /** POST trip-completed. */
  function TripCompletedHook(body: CompletionBody): (r: Reply)
    ensures r.status == 200 || r.status == 400
    ensures r.status == 200 <==> Truthy(body.tripId)
    ensures r.dispatched.Some? <==> r.status == 200
    ensures r.dispatched.Some? ==> r.dispatched.value == TripCompleted(body.tripId.value)
  {
    if !Truthy(body.tripId) then Reply(400, "tripId is required", None)
    else Reply(200, "Trip completion processed", Some(TripCompleted(body.tripId.value)))
  }

  /** Run a dispatched event to completion in the background; it never throws. */
  function Deliver(db: Db, e: Event, now: Timestamp, faults: Faults): Handled {
    match e
    case BookingStatusChanged(b, s, t) => OnBookingStatusChange(db, b, s, t, now, faults)
    case TripCompleted(t) => OnTripCompleted(db, t, now, faults)
  }

  /** "pending" is not an allowed new status: 400 and nothing dispatched. */
  lemma PendingRefused(bookingId: string, tripId: string)
    ensures var r := BookingStatusChangedHook(BookingBody(Some(bookingId), Some("pending"), Some(tripId)));
      r.status == 400 && r.dispatched.None?
  {
    assert "pending" != "accepted" && "pending" != "rejected" && "pending" != "cancelled";
  }

  /** A valid status other than the allowed three is refused with the status message. */
  lemma InvalidStatusRefused(body: BookingBody)
    requires Truthy(body.bookingId) && Truthy(body.newStatus) && Truthy(body.tripId)
    requires body.newStatus.value !in AllowedStatuses
    ensures BookingStatusChangedHook(body) == Reply(400, InvalidStatus, None)
  {
  }

  /**
   * "rejected" passes validation, so the reply is 200 and the event is
   * dispatched, but the handler recomputes nothing and changes nothing.
   */
  lemma RejectedDispatchedButInert(db: Db, bookingId: string, tripId: string, now: Timestamp, faults: Faults)
    requires bookingId != "" && tripId != ""
    ensures var r := BookingStatusChangedHook(BookingBody(Some(bookingId), Some("rejected"), Some(tripId)));
      && r.status == 200
      && r.dispatched.Some?
      && Deliver(db, r.dispatched.value, now, faults) == Handled(db, [])
  {
    assert "rejected" in AllowedStatuses;
    assert "rejected" != "accepted" && "rejected" != "cancelled";
  }

  /**
   * A valid accepted or cancelled booking event ends, in the background, with
   * exactly one recompute of its trip.
   */
  lemma ValidBookingEventRecomputesOnce(db: Db, body: BookingBody, now: Timestamp, faults: Faults)
    requires BookingStatusChangedHook(body).status == 200
    requires body.newStatus.value != "rejected"
    ensures var e := BookingStatusChangedHook(body).dispatched.value;
      Deliver(db, e, now, faults).calls == [body.tripId.value]
  {
  }
}
