/**
 * The shared store both controllers work against: the `Bookings` and
 * `Laundries` tables, with the ORM operations the handlers call
 * (`findByPk`, `create`, `save`, `destroy`). Removing a laundry also applies
 * the foreign key's ON DELETE SET NULL to the bookings that referenced it.
 */
module Storage {
  import opened Wrappers
  import opened Table
  import opened Records
  import opened Policy

  /** A booking's foreign key to its laundry is null or resolves. */
  predicate Linked(laundries: seq<Row<Laundry>>, b: Booking) {
    b.laundryId.Some? ==> Find(laundries, b.laundryId.value).Some?
  }

  /** The booker is the owner of the booked laundry. */
  predicate SelfBooked(laundries: seq<Row<Laundry>>, b: Booking) {
    OwnerOf(laundries, b).Some? && OwnerOf(laundries, b) == b.userId
  }

  /** What the controllers guarantee of every booking they write. */
  ghost predicate RowConsistent(laundries: seq<Row<Laundry>>, row: Row<Booking>) {
    AllowedStatus(row.fields.status) && Linked(laundries, row.fields) && !SelfBooked(laundries, row.fields)
  }

  ghost predicate AllConsistent(laundries: seq<Row<Laundry>>, bookings: seq<Row<Booking>>) {
    forall x :: x in bookings ==> RowConsistent(laundries, x)
  }

  /** ON DELETE SET NULL for one booking: its `laundryId` is cleared if it named `lid`. */
  function Unlink(row: Row<Booking>, lid: Id): (r: Row<Booking>)
    ensures r.id == row.id && r.createdAt == row.createdAt
    ensures r.fields.laundryId != Some(lid)
    ensures row.fields.laundryId != Some(lid) ==> r == row
    ensures row.fields.laundryId == Some(lid) ==> r.fields == row.fields.(laundryId := None)
  {
    if row.fields.laundryId == Some(lid) then row.(fields := row.fields.(laundryId := None)) else row
  }

  /** ON DELETE SET NULL over the whole `Bookings` table. */
  function Detach(rows: seq<Row<Booking>>, lid: Id): (r: seq<Row<Booking>>)
    ensures |r| == |rows|
    ensures forall i :: 0 <= i < |rows| ==> r[i].id == rows[i].id && r[i].fields.laundryId != Some(lid)
    ensures forall i :: 0 <= i < |rows| && rows[i].fields.laundryId != Some(lid) ==> r[i] == rows[i]
    ensures forall i :: 0 <= i < |rows| && rows[i].fields.laundryId == Some(lid) ==>
      r[i] == rows[i].(fields := rows[i].fields.(laundryId := None))
  {
    seq(|rows|, i requires 0 <= i < |rows| => Unlink(rows[i], lid))
  }

  /** Clearing foreign keys keeps every primary key, so keys stay unique and below the counter. */
  lemma DetachKeepsKeys(rows: seq<Row<Booking>>, lid: Id, next: Id)
    requires UniqueIds(rows) && IdsBelow(rows, next)
    ensures UniqueIds(Detach(rows, lid)) && IdsBelow(Detach(rows, lid), next)
  {
    var r := Detach(rows, lid);
    forall x, y | x in r && y in r && x.id == y.id
      ensures x == y
    {
      var i :| 0 <= i < |r| && r[i] == x;
      var j :| 0 <= j < |r| && r[j] == y;
      assert rows[i] in rows && rows[j] in rows;
    }
    forall x | x in r
      ensures x.id < next
    {
      var i :| 0 <= i < |r| && r[i] == x;
      assert rows[i] in rows;
    }
  }

  /** Adding a laundry changes no booking's owner: every existing link already resolves. */
  lemma LaundryAppendKeepsConsistent(ls: seq<Row<Laundry>>, bs: seq<Row<Booking>>, l: Row<Laundry>)
    requires AllConsistent(ls, bs)
    ensures AllConsistent(ls + [l], bs)
  {
    forall x | x in bs
      ensures RowConsistent(ls + [l], x)
    {
      if x.fields.laundryId.Some? {
        FindAfterAppend(ls, l, x.fields.laundryId.value);
      }
    }
  }

  /** Saving a laundry under the same owner changes no booking's owner or link. */
  lemma LaundrySaveKeepsConsistent(ls: seq<Row<Laundry>>, bs: seq<Row<Booking>>, l: Row<Laundry>)
    requires AllConsistent(ls, bs)
    requires Find(ls, l.id).Some? && Find(ls, l.id).value.fields.ownerId == l.fields.ownerId
    ensures AllConsistent(Replace(ls, l), bs)
  {
    var ls' := Replace(ls, l);
    forall x | x in bs
      ensures RowConsistent(ls', x)
    {
      assert RowConsistent(ls, x);
      if x.fields.laundryId.Some? {
        var lid := x.fields.laundryId.value;
        FindAfterReplace(ls, l, lid);
        assert Find(ls', lid).Some? == Find(ls, lid).Some?;
        assert OwnerOf(ls', x.fields) == OwnerOf(ls, x.fields);
      }
    }
  }

  /** Removing a laundry and clearing the keys that named it leaves every booking consistent. */
  lemma LaundryRemoveKeepsConsistent(ls: seq<Row<Laundry>>, bs: seq<Row<Booking>>, lid: Id)
    requires AllConsistent(ls, bs)
    ensures AllConsistent(Without(ls, lid), Detach(bs, lid))
  {
    var r := Detach(bs, lid);
    forall x | x in r
      ensures RowConsistent(Without(ls, lid), x)
    {
      var i :| 0 <= i < |r| && r[i] == x;
      assert bs[i] in bs;
      if x.fields.laundryId.Some? {
        FindAfterWithout(ls, lid, x.fields.laundryId.value);
      }
    }
  }

  /** Saving a booking that keeps its booker and laundry and has an allowed status keeps the store consistent. */
  lemma BookingSaveKeepsConsistent(ls: seq<Row<Laundry>>, bs: seq<Row<Booking>>, was: Row<Booking>, row: Row<Booking>)
    requires AllConsistent(ls, bs) && was in bs
    requires row.fields.userId == was.fields.userId && row.fields.laundryId == was.fields.laundryId
    requires AllowedStatus(row.fields.status)
    ensures AllConsistent(ls, Replace(bs, row))
  {
    assert RowConsistent(ls, was);
  }

  class Database {
    var bookings: seq<Row<Booking>>
    var laundries: seq<Row<Laundry>>
    var nextBookingId: Id
    var nextLaundryId: Id

    /** Primary keys are unique and below each table's auto-increment counter. */
    ghost predicate Valid()
      reads this
    {
      UniqueIds(bookings) && IdsBelow(bookings, nextBookingId)
      && UniqueIds(laundries) && IdsBelow(laundries, nextLaundryId)
    }

    /** Every booking has an allowed status, a resolvable laundry key, and is not booked by its laundry's owner. */
    ghost predicate Consistent()
      reads this
    {
      AllConsistent(laundries, bookings)
    }

    constructor ()
      ensures Valid() && Consistent()
      ensures bookings == [] && laundries == []
      ensures nextBookingId == 1 && nextLaundryId == 1
    {
      bookings, laundries := [], [];
      nextBookingId, nextLaundryId := 1, 1;
    }

    /** `Booking.findByPk(id)` */
    function FindBooking(id: Id): Option<Row<Booking>>
      reads this
    {
      Find(bookings, id)
    }

    /** `Laundry.findByPk(id)` */
    function FindLaundry(id: Id): Option<Row<Laundry>>
      reads this
    {
      Find(laundries, id)
    }

    /** `Booking.findByPk(id, { include: [{ model: Laundry, as: 'Laundry' }] })` */
    function FetchBooking(id: Id): (r: Option<Fetched>)
      reads this
      ensures r.Some? <==> FindBooking(id).Some?
      ensures r.Some? ==> r.value.row == FindBooking(id).value && r.value.row.id == id
      ensures r.Some? ==> r.value.laundryOwner == OwnerOf(laundries, r.value.row.fields)
    {
      match Find(bookings, id)
      case None => None
      case Some(row) => Some(Fetched(row, OwnerOf(laundries, row.fields)))
    }

    /** `Booking.create(fields)`: a new row under the next key, stamped `now`. */
    method CreateBookingRow(fields: Booking, now: int) returns (row: Row<Booking>)
      requires Valid()
      modifies this
      ensures Valid()
      ensures row == Row(old(nextBookingId), now, fields)
      ensures bookings == old(bookings) + [row]
      ensures nextBookingId == old(nextBookingId) + 1
      ensures laundries == old(laundries) && nextLaundryId == old(nextLaundryId)
      ensures old(FindBooking(row.id)).None? && FindBooking(row.id) == Some(row)
      ensures forall k :: k != row.id ==> FindBooking(k) == old(FindBooking(k))
    {
      row := Row(nextBookingId, now, fields);
      forall k ensures Find(bookings + [row], k) == if k == row.id then Some(row) else Find(bookings, k) {
        FindAfterAppend(bookings, row, k);
      }
      bookings := bookings + [row];
      nextBookingId := nextBookingId + 1;
    }

    /** `booking.save()`: the stored row with `row.id` becomes `row`. */
    method SaveBooking(row: Row<Booking>)
      requires Valid() && FindBooking(row.id).Some?
      modifies this
      ensures Valid()
      ensures bookings == Replace(old(bookings), row)
      ensures laundries == old(laundries)
      ensures nextBookingId == old(nextBookingId) && nextLaundryId == old(nextLaundryId)
      ensures FindBooking(row.id) == Some(row)
      ensures forall k :: k != row.id ==> FindBooking(k) == old(FindBooking(k))
    {
      forall k ensures Find(Replace(bookings, row), k) == if k == row.id then Some(row) else Find(bookings, k) {
        FindAfterReplace(bookings, row, k);
      }
      bookings := Replace(bookings, row);
    }

    /** `booking.destroy()`: the row with key `id` is gone, every other row stays. */
    method DestroyBooking(id: Id)
      requires Valid()
      modifies this
      ensures Valid()
      ensures bookings == Without(old(bookings), id)
      ensures laundries == old(laundries)
      ensures nextBookingId == old(nextBookingId) && nextLaundryId == old(nextLaundryId)
      ensures FindBooking(id).None?
      ensures forall k :: k != id ==> FindBooking(k) == old(FindBooking(k))
    {
      forall k ensures Find(Without(bookings, id), k) == if k == id then None else Find(bookings, k) {
        FindAfterWithout(bookings, id, k);
      }
      bookings := Without(bookings, id);
    }

    /** `Laundry.create(fields)`: a new row under the next key, stamped `now`. */
    method CreateLaundryRow(fields: Laundry, now: int) returns (row: Row<Laundry>)
      requires Valid()
      modifies this
      ensures Valid()
      ensures row == Row(old(nextLaundryId), now, fields)
      ensures laundries == old(laundries) + [row]
      ensures nextLaundryId == old(nextLaundryId) + 1
      ensures bookings == old(bookings) && nextBookingId == old(nextBookingId)
      ensures old(FindLaundry(row.id)).None? && FindLaundry(row.id) == Some(row)
      ensures forall k :: k != row.id ==> FindLaundry(k) == old(FindLaundry(k))
      ensures old(Consistent()) ==> Consistent()
    {
      row := Row(nextLaundryId, now, fields);
      forall k ensures Find(laundries + [row], k) == if k == row.id then Some(row) else Find(laundries, k) {
        FindAfterAppend(laundries, row, k);
      }
      if Consistent() {
        LaundryAppendKeepsConsistent(laundries, bookings, row);
      }
      laundries := laundries + [row];
      nextLaundryId := nextLaundryId + 1;
    }

    /** `item.save()` on a laundry: the stored row with `row.id` becomes `row`. */
    method SaveLaundry(row: Row<Laundry>)
      requires Valid() && FindLaundry(row.id).Some?
      modifies this
      ensures Valid()
      ensures laundries == Replace(old(laundries), row)
      ensures bookings == old(bookings)
      ensures nextBookingId == old(nextBookingId) && nextLaundryId == old(nextLaundryId)
      ensures FindLaundry(row.id) == Some(row)
      ensures forall k :: k != row.id ==> FindLaundry(k) == old(FindLaundry(k))
      ensures old(Consistent()) && old(FindLaundry(row.id)).value.fields.ownerId == row.fields.ownerId
        ==> Consistent()
    {
      forall k ensures Find(Replace(laundries, row), k) == if k == row.id then Some(row) else Find(laundries, k) {
        FindAfterReplace(laundries, row, k);
      }
      if Consistent() && FindLaundry(row.id).value.fields.ownerId == row.fields.ownerId {
        LaundrySaveKeepsConsistent(laundries, bookings, row);
      }
      laundries := Replace(laundries, row);
    }

    /**
     * `item.destroy()` on a laundry: the row with key `id` is gone, and every
     * booking that referenced it has its `laundryId` set to null.
     */
    method DestroyLaundry(id: Id)
      requires Valid()
      modifies this
      ensures Valid()
      ensures laundries == Without(old(laundries), id)
      ensures bookings == Detach(old(bookings), id)
      ensures nextBookingId == old(nextBookingId) && nextLaundryId == old(nextLaundryId)
      ensures FindLaundry(id).None?
      ensures forall k :: k != id ==> FindLaundry(k) == old(FindLaundry(k))
      ensures old(Consistent()) ==> Consistent()
    {
      forall k ensures Find(Without(laundries, id), k) == if k == id then None else Find(laundries, k) {
        FindAfterWithout(laundries, id, k);
      }
      DetachKeepsKeys(bookings, id, nextBookingId);
      if Consistent() {
        LaundryRemoveKeepsConsistent(laundries, bookings, id);
      }
      laundries := Without(laundries, id);
      bookings := Detach(bookings, id);
    }
  }
}
