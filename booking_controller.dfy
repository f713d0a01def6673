/**
 * The booking controller: create, the two listings, read one, the general
 * update, the owner-only status patch and delete. Each handler takes the
 * store, the authenticated actor and the request, and returns the HTTP
 * status it answers with together with the record it sends back.
 */
module BookingController {
  import opened Wrappers
  import opened JsValues
  import opened Table
  import opened Records
  import opened Policy
  import opened Storage

  /** The fields `createBooking` reads from `req.body`. */
  datatype CreateBody = CreateBody(
    laundryId: Field<Id>,
    scheduledAt: Field<Json>,
    serviceType: Field<Json>,
    notes: Field<Json>,
    price: Field<Json>)

  /** The fields `updateBooking` reads from `req.body`. */
  datatype UpdateBody = UpdateBody(
    scheduledAt: Field<Json>,
    serviceType: Field<Json>,
    notes: Field<Json>,
    price: Field<Json>,
    status: Field<Json>)

  /** `!laundryId` is false: the key is present and not the falsy `0`. */
  predicate LaundryIdGiven(f: Field<Id>) {
    f.Present? && f.value != 0
  }

  /** The owner path of `updateBooking` accepts `status` when `String(status).toLowerCase()` is allowed. */
  predicate AcceptedStatus(v: Json) {
    StringLower(v).Some? && AllowedStatus(StringLower(v).value)
  }

  /** Only a string can name a status in `updateBooking`: `null`, `true` and `false` give words that are not allowed. */
  lemma AcceptedStatusIsString(v: Json)
    ensures AcceptedStatus(v) <==> v.Str? && AllowedStatus(ToLower(v.s))
  {
  }

  /** How the status patch reads `(req.body?.status || '').toLowerCase()`. */
  datatype PatchStatus = Accepted(next: string) | Rejected | Throws

  function ReadPatchStatus(f: Field<Json>): (r: PatchStatus)
    ensures r.Accepted? <==> Truthy(f) && f.value.Str? && AllowedStatus(ToLower(f.value.s))
    ensures r.Accepted? ==> r.next == ToLower(f.value.s) && AllowedStatus(r.next)
    ensures r.Throws? <==> Truthy(f) && !f.value.Str?
    ensures !Truthy(f) ==> r.Rejected?
  {
    if !Truthy(f) then Rejected  // '' is not an allowed status
    else
      match f.value
      case Str(s) => if AllowedStatus(ToLower(s)) then Accepted(ToLower(s)) else Rejected
      case _ => Throws  // a truthy number or `true` has no toLowerCase: the catch answers 500
  }

  /**
   * The status compare ignores letter case: any spelling `s` whose letters
   * lower to an allowed status `t` is read as `t`, by both the status patch
   * and the general update.
   */
  lemma {:induction false} StatusCaseInsensitive(s: string, t: string)
    requires AllowedStatus(t) && |s| == |t|
    requires forall i :: 0 <= i < |s| ==> LowerChar(s[i]) == t[i]
    ensures ReadPatchStatus(Present(Str(s))) == Accepted(t)
    ensures AcceptedStatus(Str(s)) && StringLower(Str(s)) == Some(t)
  {
    assert ToLower(s) == t;
  }

  /** POST /api/bookings */
  method CreateBooking(db: Database, actor: Actor, body: CreateBody, numeric: string -> bool, now: int)
    returns (code: int, created: Option<Row<Booking>>)
    requires db.Valid()
    modifies db
    ensures db.Valid()
    ensures old(db.Consistent()) ==> db.Consistent()
    ensures code in {201, 400, 404}
    ensures code != 201 ==> created.None? && unchanged(db)
    // the next booking gets the next key; the laundry counter is untouched
    ensures db.nextBookingId == old(db.nextBookingId) + (if code == 201 then 1 else 0)
    ensures db.nextLaundryId == old(db.nextLaundryId)
    ensures !LaundryIdGiven(body.laundryId) ==> code == 400
    ensures LaundryIdGiven(body.laundryId) && old(db.FindLaundry(body.laundryId.value)).None? ==> code == 404
    ensures LaundryIdGiven(body.laundryId) && old(db.FindLaundry(body.laundryId.value)).Some? ==>
      code == if old(db.FindLaundry(body.laundryId.value)).value.fields.ownerId == actor.id then 400 else 201
    ensures code == 201 ==>
      && created.Some?
      && created.value.id == old(db.nextBookingId)
      && created.value.createdAt == now
      && created.value.fields == Booking(
           Some(actor.id), Some(body.laundryId.value), Pending,
           OrNull(body.scheduledAt), OrNull(body.serviceType), OrNull(body.notes),
           StoredPrice(body.price, numeric))
      && db.bookings == old(db.bookings) + [created.value]
      && db.laundries == old(db.laundries)
  {
    if !LaundryIdGiven(body.laundryId) {
      return 400, None;
    }
    var laundryId := body.laundryId.value;
    var laund := db.FindLaundry(laundryId);
    if laund.None? {
      return 404, None;
    }
    if laund.value.fields.ownerId == actor.id {
      return 400, None;
    }
    var fields := Booking(
      Some(actor.id), Some(laundryId), Pending,
      OrNull(body.scheduledAt), OrNull(body.serviceType), OrNull(body.notes),
      StoredPrice(body.price, numeric));
    ghost var before := db.bookings;
    var row := db.CreateBookingRow(fields, now);
    assert RowConsistent(db.laundries, row);
    assert forall x :: x in db.bookings ==> x in before || x == row;
    return 201, Some(row);
  }

  /** GET /api/bookings/owner: the bookings on laundries the actor owns, newest first. */
  method GetOwnerBookings(db: Database, actor: Actor) returns (code: int, list: seq<Row<Booking>>)
    ensures code == 200
    ensures forall x :: multiset(list)[x]
                          == if OwnerOf(db.laundries, x.fields) == Some(actor.id) then multiset(db.bookings)[x] else 0
    ensures NewestFirst(list)
  {
    var laundries := db.laundries;
    var owned := Where(db.bookings, (x: Row<Booking>) => OwnerOf(laundries, x.fields) == Some(actor.id));
    return 200, SortNewestFirst(owned);
  }

  /** GET /api/bookings/me: the bookings the actor made, newest first. */
  method GetMyBookings(db: Database, actor: Actor) returns (code: int, list: seq<Row<Booking>>)
    ensures code == 200
    ensures forall x :: multiset(list)[x]
                          == if x.fields.userId == Some(actor.id) then multiset(db.bookings)[x] else 0
    ensures NewestFirst(list)
  {
    var mine := Where(db.bookings, (x: Row<Booking>) => x.fields.userId == Some(actor.id));
    return 200, SortNewestFirst(mine);
  }

  /** GET /api/bookings/:id */
  method GetBookingById(db: Database, actor: Actor, id: Id) returns (code: int, booking: Option<Fetched>)
    ensures code in {200, 403, 404}
    ensures code == 404 <==> db.FindBooking(id).None?
    ensures code == 403 <==> db.FetchBooking(id).Some? && !CanView(db.FetchBooking(id).value, actor.id)
    ensures code == 200 ==> booking == db.FetchBooking(id) && booking.value.row in db.bookings
    ensures code == 200 ==> actor.id in Parties(booking.value)
    ensures code != 200 ==> booking.None?
  {
    var fetched := db.FetchBooking(id);
    if fetched.None? {
      return 404, None;
    }
    if !CanView(fetched.value, actor.id) {
      return 403, None;
    }
    return 200, fetched;
  }

  /** PUT /api/bookings/:id */
  method UpdateBooking(db: Database, actor: Actor, id: Id, body: UpdateBody)
    returns (code: int, saved: Option<Row<Booking>>)
    requires db.Valid()
    modifies db
    ensures db.Valid()
    ensures old(db.Consistent()) ==> db.Consistent()
    ensures code in {200, 400, 403, 404}
    ensures code != 200 ==> saved.None? && unchanged(db)
    ensures db.nextBookingId == old(db.nextBookingId) && db.nextLaundryId == old(db.nextLaundryId)
    ensures old(db.FetchBooking(id)).None? ==> code == 404
    ensures old(db.FetchBooking(id)).Some? ==>
      var f := old(db.FetchBooking(id)).value;
      var isOwner := CanOwnerModify(f, actor.id);
      var isBooker := CanUserModifyOwn(f, actor.id);
      code == if !isOwner && !isBooker then 403
              else if !isOwner && body.status.Present? then 403
              else if body.status.Present? && !AcceptedStatus(body.status.value) then 400
              else 200
    ensures code == 200 ==>
      var was := old(db.FindBooking(id)).value;
      // `userId`, `laundryId`, the key and `createdAt` are never written
      && saved == Some(was.(fields := was.fields.(
           scheduledAt := Override(body.scheduledAt, was.fields.scheduledAt),
           serviceType := Override(body.serviceType, was.fields.serviceType),
           notes := Override(body.notes, was.fields.notes),
           price := Override(body.price, was.fields.price),
           status := if body.status.Present? then StringLower(body.status.value).value else was.fields.status)))
      && db.bookings == Replace(old(db.bookings), saved.value)
      && db.laundries == old(db.laundries)
      && db.FindBooking(id) == saved
      && forall k :: k != id ==> db.FindBooking(k) == old(db.FindBooking(k))
  {
    var fetched := db.FetchBooking(id);
    if fetched.None? {
      return 404, None;
    }
    var isOwner := CanOwnerModify(fetched.value, actor.id);
    var isBooker := CanUserModifyOwn(fetched.value, actor.id);
    if !isOwner && !isBooker {
      return 403, None;
    }
    if !isOwner && body.status.Present? {
      return 403, None;
    }
    // The edits land on the fetched copy; an early return below drops them unsaved.
    var booking := fetched.value.row;
    booking := booking.(fields := booking.fields.(scheduledAt := Override(body.scheduledAt, booking.fields.scheduledAt)));
    booking := booking.(fields := booking.fields.(serviceType := Override(body.serviceType, booking.fields.serviceType)));
    booking := booking.(fields := booking.fields.(notes := Override(body.notes, booking.fields.notes)));
    booking := booking.(fields := booking.fields.(price := Override(body.price, booking.fields.price)));
    if isOwner && body.status.Present? {
      var next := StringLower(body.status.value);
      if next.None? || !AllowedStatus(next.value) {
        return 400, None;
      }
      booking := booking.(fields := booking.fields.(status := next.value));
    }
    if db.Consistent() {
      assert fetched.value.row in db.bookings;
      assert RowConsistent(db.laundries, fetched.value.row);
      BookingSaveKeepsConsistent(db.laundries, db.bookings, fetched.value.row, booking);
    }
    db.SaveBooking(booking);
    return 200, Some(booking);
  }

  /** PATCH /api/bookings/:id/status */
  method UpdateBookingStatus(db: Database, actor: Actor, id: Id, status: Field<Json>)
    returns (code: int, saved: Option<Row<Booking>>)
    requires db.Valid()
    modifies db
    ensures db.Valid()
    ensures old(db.Consistent()) ==> db.Consistent()
    ensures code in {200, 400, 403, 404, 500}
    ensures code != 200 ==> saved.None? && unchanged(db)
    ensures db.nextBookingId == old(db.nextBookingId) && db.nextLaundryId == old(db.nextLaundryId)
    ensures ReadPatchStatus(status).Rejected? ==> code == 400
    ensures ReadPatchStatus(status).Throws? ==> code == 500
    ensures ReadPatchStatus(status).Accepted? ==>
      code == if old(db.FetchBooking(id)).None? then 404
              else if !CanOwnerModify(old(db.FetchBooking(id)).value, actor.id) then 403
              else 200
    ensures code == 200 ==>
      var was := old(db.FindBooking(id)).value;
      && saved == Some(was.(fields := was.fields.(status := ReadPatchStatus(status).next)))
      && db.bookings == Replace(old(db.bookings), saved.value)
      && db.laundries == old(db.laundries)
      && db.FindBooking(id) == saved
      && forall k :: k != id ==> db.FindBooking(k) == old(db.FindBooking(k))
  {
    var next := ReadPatchStatus(status);
    if next.Throws? {
      return 500, None;
    }
    if next.Rejected? {
      return 400, None;
    }
    var fetched := db.FetchBooking(id);
    if fetched.None? {
      return 404, None;
    }
    if !CanOwnerModify(fetched.value, actor.id) {
      return 403, None;
    }
    var booking := fetched.value.row.(fields := fetched.value.row.fields.(status := next.next));
    if db.Consistent() {
      BookingSaveKeepsConsistent(db.laundries, db.bookings, fetched.value.row, booking);
    }
    db.SaveBooking(booking);
    return 200, Some(booking);
  }

  /** DELETE /api/bookings/:id */
  method DeleteBooking(db: Database, actor: Actor, id: Id) returns (code: int)
    requires db.Valid()
    modifies db
    ensures db.Valid()
    ensures old(db.Consistent()) ==> db.Consistent()
    ensures code in {200, 403, 404}
    ensures code != 200 ==> unchanged(db)
    ensures db.nextBookingId == old(db.nextBookingId) && db.nextLaundryId == old(db.nextLaundryId)
    ensures old(db.FetchBooking(id)).None? ==> code == 404
    ensures old(db.FetchBooking(id)).Some? ==>
      var f := old(db.FetchBooking(id)).value;
      code == if CanOwnerModify(f, actor.id) || CanUserModifyOwn(f, actor.id) then 200 else 403
    ensures code == 200 ==>
      && db.bookings == Without(old(db.bookings), id)
      && db.laundries == old(db.laundries)
      && db.FindBooking(id).None?
      && forall k :: k != id ==> db.FindBooking(k) == old(db.FindBooking(k))
  {
    var fetched := db.FetchBooking(id);
    if fetched.None? {
      return 404;
    }
    var isOwner := CanOwnerModify(fetched.value, actor.id);
    var isBooker := CanUserModifyOwn(fetched.value, actor.id);
    if !isOwner && !isBooker {
      return 403;
    }
    db.DestroyBooking(id);
    return 200;
  }
}
