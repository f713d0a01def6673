/**
 * Clients of the two controllers: an owner opens a laundry, a customer
 * books it, the owner confirms, and strangers are refused, with every
 * outcome asserted from the handlers' contracts alone.
 */
module Scenarios {
  import opened Wrappers
  import opened JsValues
  import opened Table
  import opened Records
  import opened Policy
  import opened Storage
  import opened BookingController
  import LaundryController

  const Owner := Actor(1, "owner")
  const Customer := Actor(2, "user")
  const Stranger := Actor(3, "user")

  /** An owner opens a laundry (a customer may not), and a customer books it (its owner may not). */
  method Setup(numeric: string -> bool) returns (db: Database, laundry: Row<Laundry>, booking: Row<Booking>)
    ensures fresh(db) && db.Valid()
    ensures db.laundries == [laundry] && db.bookings == [booking]
    ensures laundry.fields.ownerId == Owner.id
    ensures booking.fields.userId == Some(Customer.id) && booking.fields.laundryId == Some(laundry.id)
    ensures booking.fields.status == "pending" && booking.fields.price == Num(0.0)
  {
    db := new Database();
    var code, created := LaundryController.Create(db, Customer, LaundryController.LaundryBody(Present(Str("Suds")), Absent, Present(Num(1.5)), Present(Num(2.5)), Absent), 10);
    assert code == 403;
    code, created := LaundryController.Create(db, Owner, LaundryController.LaundryBody(Present(Str("Suds")), Absent, Present(Num(1.5)), Present(Num(2.5)), Present(Num(2.0))), 10);
    assert code == 201;
    laundry := created.value;
    assert db.FindLaundry(laundry.id) == Some(laundry);
    var made;
    code, made := CreateBooking(db, Owner, CreateBody(Present(laundry.id), Absent, Absent, Absent, Absent), numeric, 11);
    assert code == 400;
    code, made := CreateBooking(db, Customer, CreateBody(Present(laundry.id), Present(Str("")), Absent, Absent, Present(Num(0.0))), numeric, 12);
    assert code == 201;
    booking := made.value;
  }

  lemma LowerConfirmed()
    ensures ToLower("Confirmed") == "confirmed"
  {
    var r := ToLower("Confirmed");
    assert r[0] == 'c';
  }

  /** The owner confirms, in any letter case. */
  method OwnerConfirms(numeric: string -> bool) {
    var db, laundry, booking := Setup(numeric);
    assert db.FetchBooking(booking.id) == Some(Fetched(booking, Some(Owner.id)));
    LowerConfirmed();
    var code, saved := UpdateBookingStatus(db, Owner, booking.id, Present(Str("Confirmed")));
    assert code == 200 && saved.value.fields.status == "confirmed";
  }

  /** The customer may not set the status through the owner's patch. */
  method CustomerCannotCancel(numeric: string -> bool) {
    var db, laundry, booking := Setup(numeric);
    assert db.FetchBooking(booking.id) == Some(Fetched(booking, Some(Owner.id)));
    AllowedStatusIsLowerCase("cancelled");
    var code, saved := UpdateBookingStatus(db, Customer, booking.id, Present(Str("cancelled")));
    assert code == 403;
  }

  /** An unknown status is refused before the booking is looked up. */
  method UnknownStatusRefusedFirst(numeric: string -> bool) {
    var db, laundry, booking := Setup(numeric);
    var code, saved := UpdateBookingStatus(db, Owner, booking.id + 7, Present(Str("closed")));
    assert code == 400;
  }

  /** The booker may change the price, and an empty string is stored as it came, not as null. */
  method BookerEditsPrice(numeric: string -> bool) {
    var db, laundry, booking := Setup(numeric);
    assert db.FetchBooking(booking.id) == Some(Fetched(booking, Some(Owner.id)));
    var code, saved := UpdateBooking(db, Customer, booking.id, UpdateBody(Absent, Absent, Absent, Present(Str("")), Absent));
    assert code == 200 && saved.value.fields.price == Str("") && saved.value.fields.status == "pending";
    code, saved := UpdateBooking(db, Customer, booking.id, UpdateBody(Absent, Absent, Absent, Absent, Present(Str("confirmed"))));
    assert code == 403;
  }

  /** A stranger may neither read nor delete the booking. */
  method StrangerRefused(numeric: string -> bool) {
    var db, laundry, booking := Setup(numeric);
    assert db.FetchBooking(booking.id) == Some(Fetched(booking, Some(Owner.id)));
    var code, fetched := GetBookingById(db, Stranger, booking.id);
    assert code == 403;
    code := DeleteBooking(db, Stranger, booking.id);
    assert code == 403;
  }

  /** Once its laundry is removed, the booking survives with no laundry and only the booker sees it. */
  method LaundryRemoved(numeric: string -> bool) {
    var db, laundry, booking := Setup(numeric);
    assert db.FindLaundry(laundry.id) == Some(laundry);
    var code := LaundryController.Remove(db, Owner, laundry.id);
    assert code == 200;
    assert db.bookings[0].fields.laundryId == None;
    assert db.FetchBooking(booking.id).value.laundryOwner == None;
    var fetched;
    code, fetched := GetBookingById(db, Owner, booking.id);
    assert code == 403;
    code, fetched := GetBookingById(db, Customer, booking.id);
    assert code == 200;
  }
}
