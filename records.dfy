/**
 * The shapes of the stored records: a `Bookings` row and a `Laundries` row,
 * the authenticated actor, and the closed set of booking statuses the
 * controllers write.
 */
module Records {
  import opened Wrappers
  import opened JsValues
  import opened Table

  /** `req.user` as the authentication middleware leaves it: the user's key and role. */
  datatype Actor = Actor(id: Id, role: string)

  /**
   * The columns of a booking. Every column is nullable: `userId` and
   * `laundryId` are foreign keys that ON DELETE SET NULL may clear, and the
   * request-supplied columns hold whatever scalar was stored.
   */
  datatype Booking = Booking(
    userId: Option<Id>,
    laundryId: Option<Id>,
    status: string,
    scheduledAt: Json,
    serviceType: Json,
    notes: Json,
    price: Json)

  /** The columns of a laundry; `lat` and `lng` are only copied, so they stay opaque scalars. */
  datatype Laundry = Laundry(name: Json, description: Json, lat: Json, lng: Json, ownerId: Id)

  /** The status every new booking starts in. */
  const Pending: string := "pending"

  /** `['pending', 'confirmed', 'cancelled'].includes(s)` */
  predicate AllowedStatus(s: string) {
    s == "pending" || s == "confirmed" || s == "cancelled"
  }

  /** Every allowed status is already lower case, so lower-casing a request maps it onto itself. */
  lemma AllowedStatusIsLowerCase(s: string)
    requires AllowedStatus(s)
    ensures ToLower(s) == s
  {
    assert IsLowerCase(s);
    ToLowerFixesLowerCase(s);
  }

  /**
   * `booking.Laundry.ownerId`: the owner of the laundry the booking's
   * `laundryId` resolves to, or none when the key is null or dangling.
   */
  function OwnerOf(laundries: seq<Row<Laundry>>, b: Booking): Option<Id> {
    match b.laundryId
    case None => None
    case Some(lid) =>
      match Find(laundries, lid)
      case None => None
      case Some(l) => Some(l.fields.ownerId)
  }
}
