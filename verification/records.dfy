/**
 * The two collections the popularity engine reads: `rides` (trips) and
 * `ridesRequests` (bookings), as an immutable snapshot of the document store.
 */
module Records {
  import opened Common

  type TripId = string

  /** The server timestamp written on every recompute, as an opaque counter. */
  type Timestamp = nat

  datatype TripStatus = Scheduled | Started | Completed | Cancelled

  datatype BookingStatus = Pending | Accepted | Rejected | Cancelled

  /** The `name` field of a location: missing, stored as JSON `null`, or a string. */
  datatype NameField = Absent | Null | Text(value: string)

  /** A location sub-document. */
  datatype Location = Location(name: NameField)

  /**
   * A trip document. `routeKey` is the key STORED on the document (absent
   * until the first recompute writes it); the key derived from the location
   * names is computed by RouteKeys.DerivedKey and may differ from it.
   */
  datatype Trip = Trip(
    status: TripStatus,
    fromLocation: Option<Location>,
    toLocation: Option<Location>,
    routeKey: Option<string>,
    popularityScore: Option<nat>,
    lastPopularityUpdate: Option<Timestamp>)

  /** A booking document of `ridesRequests`; `rideId` is a foreign key into `rides`. */
  datatype Booking = Booking(id: string, rideId: TripId, status: BookingStatus)

  /**
   * A snapshot of the store. `order` lists the trip documents in the order
   * the store returns query results.
   */
  datatype Db = Db(rides: map<TripId, Trip>, order: seq<TripId>, requests: seq<Booking>)

  /** The snapshot is consistent: `order` lists every trip document exactly once. */
  predicate Valid(db: Db) {
    && Distinct(db.order)
    && db.rides.Keys == Elements(db.order)
  }

  /** The status filter `status in [scheduled, started, completed]`. */
  predicate IsActive(s: TripStatus) {
    s == Scheduled || s == Started || s == Completed
  }
}
