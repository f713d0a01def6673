/**
 * The laundry controller: the public reads, the owner's own list, and the
 * owner-only create, update and remove.
 */
module LaundryController {
  import opened Wrappers
  import opened JsValues
  import opened Table
  import opened Records
  import opened Storage

  /** The laundry columns a request body may carry; `ownerId` is read and then overridden. */
  datatype LaundryBody = LaundryBody(
    name: Field<Json>,
    description: Field<Json>,
    lat: Field<Json>,
    lng: Field<Json>,
    ownerId: Field<Json>)

  /** GET /api/laundries: every laundry once, in no promised order. */
  method GetAll(db: Database) returns (code: int, list: seq<Row<Laundry>>)
    ensures code == 200
    ensures multiset(list) == multiset(db.laundries)
  {
    return 200, db.laundries;
  }

  /** GET /api/laundries/:id */
  method GetById(db: Database, id: Id) returns (code: int, item: Option<Row<Laundry>>)
    ensures code in {200, 404}
    ensures code == 404 <==> (forall x :: x in db.laundries ==> x.id != id)
    ensures code == 200 ==> item == db.FindLaundry(id) && item.value.id == id && item.value in db.laundries
    ensures code == 404 ==> item.None?
  {
    item := db.FindLaundry(id);
    if item.None? {
      return 404, None;
    }
    return 200, item;
  }

  /** GET /api/laundries/owner/mine: exactly the laundries the actor owns. */
  method GetMine(db: Database, actor: Actor) returns (code: int, list: seq<Row<Laundry>>)
    ensures code == 200
    ensures forall x :: multiset(list)[x]
                          == if x.fields.ownerId == actor.id then multiset(db.laundries)[x] else 0
  {
    return 200, Where(db.laundries, (x: Row<Laundry>) => x.fields.ownerId == actor.id);
  }

  /** POST /api/laundries */
  method Create(db: Database, actor: Actor, body: LaundryBody, now: int)
    returns (code: int, created: Option<Row<Laundry>>)
    requires db.Valid()
    modifies db
    ensures db.Valid()
    ensures old(db.Consistent()) ==> db.Consistent()
    ensures code == if actor.role == "owner" then 201 else 403
    ensures code == 403 ==> created.None? && unchanged(db)
    // the next laundry gets the next key; the booking counter is untouched
    ensures db.nextLaundryId == old(db.nextLaundryId) + (if code == 201 then 1 else 0)
    ensures db.nextBookingId == old(db.nextBookingId)
    ensures code == 201 ==>
      && created.Some?
      && created.value.id == old(db.nextLaundryId)
      && created.value.createdAt == now
      && created.value.fields == Laundry(
           ValueOrNull(body.name), ValueOrNull(body.description),
           ValueOrNull(body.lat), ValueOrNull(body.lng), actor.id)
      && db.laundries == old(db.laundries) + [created.value]
      && db.bookings == old(db.bookings)
    // whatever `ownerId` the body carries, the actor owns the new laundry
    ensures code == 201 ==> created.value.fields.ownerId == actor.id
  {
    if actor.role != "owner" {
      return 403, None;
    }
    // `{ ...req.body, ownerId: req.user.id }`: the override comes after the spread
    var fields := Laundry(
      ValueOrNull(body.name), ValueOrNull(body.description),
      ValueOrNull(body.lat), ValueOrNull(body.lng), actor.id);
    var row := db.CreateLaundryRow(fields, now);
    return 201, Some(row);
  }

  /** PUT /api/laundries/:id */
  method Update(db: Database, actor: Actor, id: Id, body: LaundryBody)
    returns (code: int, saved: Option<Row<Laundry>>)
    requires db.Valid()
    modifies db
    ensures db.Valid()
    ensures old(db.Consistent()) ==> db.Consistent()
    ensures code in {200, 403, 404}
    ensures code != 200 ==> saved.None? && unchanged(db)
    ensures db.nextBookingId == old(db.nextBookingId) && db.nextLaundryId == old(db.nextLaundryId)
    ensures old(db.FindLaundry(id)).None? ==> code == 404
    ensures old(db.FindLaundry(id)).Some? ==>
      code == if old(db.FindLaundry(id)).value.fields.ownerId == actor.id then 200 else 403
    ensures code == 200 ==>
      var item := old(db.FindLaundry(id)).value;
      // `ownerId`, the key and `createdAt` are never written
      && saved == Some(item.(fields := item.fields.(
           name := Override(body.name, item.fields.name),
           description := Override(body.description, item.fields.description),
           lat := Override(body.lat, item.fields.lat),
           lng := Override(body.lng, item.fields.lng))))
      && db.laundries == Replace(old(db.laundries), saved.value)
      && db.bookings == old(db.bookings)
      && db.FindLaundry(id) == saved
      && forall k :: k != id ==> db.FindLaundry(k) == old(db.FindLaundry(k))
  {
    var found := db.FindLaundry(id);
    if found.None? {
      return 404, None;
    }
    var item := found.value;
    if item.fields.ownerId != actor.id {
      return 403, None;
    }
    item := item.(fields := item.fields.(name := Override(body.name, item.fields.name)));
    item := item.(fields := item.fields.(description := Override(body.description, item.fields.description)));
    item := item.(fields := item.fields.(lat := Override(body.lat, item.fields.lat)));
    item := item.(fields := item.fields.(lng := Override(body.lng, item.fields.lng)));
    db.SaveLaundry(item);
    return 200, Some(item);
  }

  /** DELETE /api/laundries/:id */
  method Remove(db: Database, actor: Actor, id: Id) returns (code: int)
    requires db.Valid()
    modifies db
    ensures db.Valid()
    ensures old(db.Consistent()) ==> db.Consistent()
    ensures code in {200, 403, 404}
    ensures code != 200 ==> unchanged(db)
    ensures db.nextBookingId == old(db.nextBookingId) && db.nextLaundryId == old(db.nextLaundryId)
    ensures old(db.FindLaundry(id)).None? ==> code == 404
    ensures old(db.FindLaundry(id)).Some? ==>
      code == if old(db.FindLaundry(id)).value.fields.ownerId == actor.id then 200 else 403
    ensures code == 200 ==>
      && db.laundries == Without(old(db.laundries), id)
      && db.FindLaundry(id).None?
      && (forall k :: k != id ==> db.FindLaundry(k) == old(db.FindLaundry(k)))
      // ON DELETE SET NULL: bookings of the removed laundry survive with a null `laundryId`
      && db.bookings == Detach(old(db.bookings), id)
  {
    var found := db.FindLaundry(id);
    if found.None? {
      return 404;
    }
    if found.value.fields.ownerId != actor.id {
      return 403;
    }
    db.DestroyLaundry(id);
    return 200;
  }
}
