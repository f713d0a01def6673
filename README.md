# Laundry booking marketplace: authorization and record rules

This project models the core of a laundry-booking backend. Owners list laundries and customers book them. Owners confirm or cancel bookings, and each party may only touch what it has a stake in. The model covers the two controllers that hold this logic:

- the **booking controller**: three ownership predicates (`canView`, `canOwnerModify`, `canUserModifyOwn`), create, the owner's list, the customer's list, read one, the general update, the owner-only status patch and delete;
- the **laundry controller**: the public reads, the owner's own list, and the owner-only create, update and remove.

The shared store is a `Database` object (`storage.dfy`) that holds the `Bookings` and `Laundries` tables. Each table is a sequence of rows, and each row has an auto-increment key, a `createdAt` stamp and the record's columns. The ORM calls the handlers make are methods of that object:

- `findByPk` is a lookup function;
- `create`, `save` and `destroy` are methods that change the tables.

Removing a laundry also applies the foreign key's ON DELETE SET NULL to the bookings that named it.

Each handler is a method. It takes the store, the authenticated actor `{id, role}` and the request body, and returns the HTTP status together with the record it sends back. A body field is `Absent` (JavaScript's `undefined`) or `Present` with a JSON scalar. Each handler's postcondition states:

- which status it answers, and in which order the checks run;
- that the store is unchanged on every error;
- exactly which rows and columns change on success.

The handlers also keep one store invariant, `Database.Consistent`: every booking has an allowed status, its laundry key is null or resolves, and no booking is booked by the owner of its laundry. `scenarios.dfy` replays an owner/customer flow as client methods: an owner opens a laundry, a customer books it, the owner confirms, a stranger is refused, the laundry is removed, and the verifier proves each asserted outcome from the handlers' contracts alone.

Modules:

- `Wrappers` holds `Option`.
- `JsValues` holds JSON scalars, truthiness, `x || null`, the price rule and `toLowerCase`.
- `Table` holds rows, key lookup, `where`, `save`/`destroy` on a row sequence, and ordering by `createdAt`.
- `Records` holds the record shapes and the status set.
- `Policy` holds the ownership predicates.
- `Storage` holds the store and its invariants.
- `BookingController`, `LaundryController` and `Scenarios` hold the handlers and the client flow.

The model follows the code as written, including these behaviours a reader might not expect:

- **Empty strings and empty updates.** The general update stores `""` as given; it does not store null. It also accepts a body that changes nothing.
- **Bookers can change the price.** A booker may change `price` as well as `scheduledAt`, `serviceType` and `notes`. The comment at controllers/bookingController.js:115-116 lists only the last three.
- **Any status from any state.** The status patch accepts any allowed status from any current status, including a return from `confirmed` or `cancelled` to `pending`.
- **No role check on create.** Creating a booking checks no role, so any authenticated user who does not own the laundry may book it.
- **500 for a non-string status.** In the status patch, a truthy status that is not a string (a number, `true`) makes `toLowerCase` throw. The catch then answers 500, not 400.
- **Status set and delete policy.** The status set is `pending`, `confirmed`, `cancelled`, as controllers/bookingController.js:143 and :163 write it. Deleting a laundry sets the bookings' `laundryId` to null, as models/Booking.js:40-53 declares.

## Model

| member | source | states |
|---|---|---|
| `Policy.CanView` | controllers/bookingController.js:7-19 | holds exactly when the actor is in `Parties` (the attached laundry's owner or the booker), and equals `canOwnerModify` or `canUserModifyOwn` |
| `Policy.OrphanVisibleOnlyToBooker` | controllers/bookingController.js:7-11 | a booking with no attached laundry is visible to its booker only; the owner test fails for everyone |
| `Policy.CanOwnerModify` | controllers/bookingController.js:13-15 | the actor owns the laundry the booking's `laundryId` resolves to; false when the booking has no attached laundry |
| `Policy.CanUserModifyOwn` | controllers/bookingController.js:17-19 | the actor is the booking's `userId` |
| `Records.OwnerOf` | controllers/bookingController.js:8 | `booking?.Laundry?.ownerId` through the `include`: the owner of the laundry the booking's key resolves to, none when the key is null or names no stored laundry |
| `Records.AllowedStatus` | controllers/bookingController.js:143 | the status set `pending`, `confirmed`, `cancelled`, the same list line 163 uses |
| `JsValues.Truthy` | controllers/bookingController.js:25 | JavaScript truthiness of a body field: `undefined`, `null`, `false`, `0` and `""` are falsy, as the tests at lines 25, 38-41 and 162 read them |
| `JsValues.Override` | controllers/bookingController.js:136-139 | `if (typeof x !== 'undefined') target = x`: an absent field keeps the stored value, a present one (even null or `""`) replaces it; laundryController.js:42-45 uses the same rule |
| `JsValues.ValueOrNull` | controllers/laundryController.js:28 | a body column the spread leaves out is stored as null, any present value as given |
| `JsValues.NumberIsNotNaN` | controllers/bookingController.js:41 | `!Number.isNaN(Number(v))`: null, booleans and numbers pass, a string passes when `numeric` says `Number` parses it |
| `BookingController.LaundryIdGiven` | controllers/bookingController.js:25 | `!laundryId` is false: the key is present and not `0` |
| `BookingController.AcceptedStatus` | controllers/bookingController.js:141-144 | the general update's test: `String(status).toLowerCase()` is an allowed status |
| `JsValues.OrNull` | controllers/bookingController.js:38-40 | a falsy field (`undefined`, `null`, `false`, `0`, `""`) is stored as null; a truthy one is stored as given |
| `JsValues.StoredPrice` | controllers/bookingController.js:41 | the stored price is null or the given value: numbers are kept (0 too), a string only when non-empty and numeric, `true` is kept, absent, null and `false` become null |
| `JsValues.ToLower` | controllers/bookingController.js:142 | lower-casing keeps the length, turns each ASCII capital into its small letter, leaves every other character as it is, and leaves no capital |
| `BookingController.StatusCaseInsensitive` | controllers/bookingController.js:142-144 | any spelling whose letters lower to an allowed status is read as that status, by the status patch and by the general update |
| `JsValues.StringLower` | controllers/bookingController.js:142 | `String(v).toLowerCase()` is lower case; only a number gives no modelled text |
| `Records.AllowedStatusIsLowerCase` | controllers/bookingController.js:143 | every allowed status is its own lower-case form |
| `BookingController.AcceptedStatusIsString` | controllers/bookingController.js:141-144 | the general update accepts a status exactly when it is a string whose lower-case form is allowed; `null`, `true` and `false` never pass |
| `BookingController.ReadPatchStatus` | controllers/bookingController.js:162-166 | a falsy status is rejected; a truthy non-string throws; a string is accepted, lower-cased, exactly when its lower-case form is allowed |
| `BookingController.CreateBooking` | controllers/bookingController.js:22-45 | 400 for a missing or zero `laundryId`, then 404 for an unknown laundry, then 400 when the actor owns it, with the store unchanged each time; otherwise 201 and exactly one row appended under the next key, with the actor as booker, the given laundry, status `pending`, falsy optional fields as null and the price rule; the created table's key counter advances by one on 201 and the other counter never moves |
| `BookingController.GetOwnerBookings` | controllers/bookingController.js:53-69 | exactly the bookings whose laundry resolves and is owned by the actor, each as often as stored, newest first |
| `BookingController.GetMyBookings` | controllers/bookingController.js:77-86 | exactly the bookings whose booker is the actor, each as often as stored, newest first |
| `BookingController.GetBookingById` | controllers/bookingController.js:94-107 | 404 exactly when the key is missing, 403 exactly when `canView` fails; a 200 returns exactly what the store's `findByPk` with the laundry `include` yields (the stored row and its laundry's real owner), and the actor is one of its parties |
| `BookingController.UpdateBooking` | controllers/bookingController.js:117-151 | 404, then 403 for neither owner nor booker, then 403 for a booker sending any status, then 400 for an owner status that is not allowed, each with the store unchanged (earlier field edits are dropped); a 200 saves the row with only the present fields overwritten and, for the owner, the lower-cased status; the key, `createdAt`, `userId` and `laundryId` are kept, every other booking is unchanged, and the store stays consistent; both key counters are unchanged |
| `BookingController.UpdateBookingStatus` | controllers/bookingController.js:159-176 | 500 for a truthy non-string status and 400 for a disallowed one, both before any lookup and with the store unchanged; then 404, then 403 unless the actor owns the laundry; a 200 changes only `status`, to the lower-cased value, whatever the previous status; both key counters are unchanged |
| `BookingController.DeleteBooking` | controllers/bookingController.js:185-199 | 404 for a missing booking, 403 unless the actor is owner or booker, the store unchanged in both cases; a 200 removes exactly that booking and every other lookup is unchanged; both key counters are unchanged |
| `LaundryController.GetAll` | controllers/laundryController.js:5-8 | every laundry exactly once, in no promised order |
| `LaundryController.GetById` | controllers/laundryController.js:11-15 | 404 exactly when no laundry has the key; a 200 returns exactly what `findByPk` finds, the stored laundry with that key |
| `LaundryController.GetMine` | controllers/laundryController.js:18-21 | exactly the laundries whose `ownerId` is the actor, each as often as stored |
| `LaundryController.Create` | controllers/laundryController.js:24-30 | 403 with the store unchanged unless the role is `owner`; otherwise 201 and one row appended whose `ownerId` is the actor whatever the body says, the other columns as sent or null; the created table's key counter advances by one on 201 and the other counter never moves |
| `LaundryController.Update` | controllers/laundryController.js:33-49 | 404, then 403 when the actor is not the owner, with the store unchanged; a 200 overwrites only the present `name`, `description`, `lat`, `lng`, keeps `ownerId`, and leaves every other laundry and every booking unchanged; both key counters are unchanged |
| `LaundryController.Remove` | controllers/laundryController.js:52-60 | 404, then 403 as for update, with the store unchanged; a 200 removes exactly that laundry, keeps the other lookups, and clears `laundryId` on the bookings that named it; both key counters are unchanged |
| `Storage.Database.FetchBooking` | controllers/bookingController.js:97-102 | the booking with the key, found exactly when it is stored, with the owner of the laundry its key resolves to |
| `Storage.Database.CreateBookingRow` | controllers/bookingController.js:35-43 | `Booking.create` appends one row under the next key, stamped with the clock, and advances the booking counter by one; the key was unused and every other lookup is unchanged |
| `Storage.Database.SaveBooking` | controllers/bookingController.js:150 | `save` replaces the stored row with that key; every other lookup is unchanged |
| `Storage.Database.DestroyBooking` | controllers/bookingController.js:198 | `destroy` removes the row with that key; every other lookup is unchanged |
| `Storage.Database.CreateLaundryRow` | controllers/laundryController.js:28 | `Laundry.create` appends one row under the next key and advances the laundry counter by one; the store stays consistent |
| `Storage.Database.SaveLaundry` | controllers/laundryController.js:47 | `save` replaces the laundry row with that key; with the owner unchanged the store stays consistent |
| `Storage.Database.DestroyLaundry` | models/Booking.js:40-53 | `destroy` removes the laundry and sets to null the `laundryId` of the bookings that named it; the store stays consistent |
| `Storage.Unlink` | models/Booking.js:47-53 | ON DELETE SET NULL on one booking: when it named the removed laundry its `laundryId` becomes null and every other column, the key and the timestamp are kept; otherwise it is untouched |
| `Storage.Detach` | models/Booking.js:40-53 | ON DELETE SET NULL over the table: same length and order, every row that named the removed laundry has only its `laundryId` set to null, every other row is unchanged |
| `Storage.DetachKeepsKeys` | models/Booking.js:40-53 | clearing foreign keys keeps the primary keys unique and below the counter |
| `Storage.LaundryAppendKeepsConsistent` | controllers/laundryController.js:28 | a new laundry changes no booking's owner or link |
| `Storage.LaundrySaveKeepsConsistent` | controllers/laundryController.js:41-47 | saving a laundry under the same owner keeps every booking consistent |
| `Storage.LaundryRemoveKeepsConsistent` | controllers/laundryController.js:58 | removing a laundry and clearing the keys that named it keeps every booking consistent |
| `Storage.BookingSaveKeepsConsistent` | controllers/bookingController.js:136-150 | saving a booking with the same booker and laundry and an allowed status keeps the store consistent |
| `Table.Find` | controllers/bookingController.js:27 | `findByPk` returns a stored row with the key, and returns nothing exactly when no row has it |
| `Table.FindAfterAppend` | controllers/bookingController.js:35 | after an insert, every key found before finds the same row, and the new key finds the new row |
| `Table.Replace` | controllers/bookingController.js:150 | `save` keeps the length, and every row after it is the saved row or an untouched row with another key |
| `Table.FindAfterReplace` | controllers/bookingController.js:150 | after a `save`, the saved key finds the new row and every other key finds what it found before |
| `Table.Without` | controllers/bookingController.js:198 | `destroy` drops every row with the key and keeps every other row as often as it was stored |
| `Table.FindAfterWithout` | controllers/bookingController.js:198 | after a `destroy`, the key finds nothing and every other key finds what it found before |
| `Table.Where` | controllers/bookingController.js:62 | a `where` filter keeps exactly the rows that satisfy the condition, each as often as stored |
| `Table.SortNewestFirst` | controllers/bookingController.js:67 | `ORDER BY createdAt DESC` yields a permutation of its input in which no row is newer than one before it |
| `Table.InsertByCreated` | controllers/bookingController.js:67 | inserting into a newest-first sequence keeps it newest first and adds exactly that row |

## Left out

- Authentication is not part of this model. The middleware's bearer-token check, `jwt.verify`, the user lookup and `authController`'s `bcrypt` hashing and token signing are foreign calls; the actor `{id, role}` is a trusted input.
- Routing and the server setup (`routes/*.js`, `server.js`) are framework wiring and are not modelled.
- Users are not modelled, so neither is the ON DELETE CASCADE from a user to their laundries, nor ON DELETE SET NULL from a user to their bookings.
- Storage failures are not modelled: every store call succeeds. So the 500 answers of the booking controller's `catch` blocks for storage errors are left out. An unanswered request in the laundry controller, which has no `catch`, is left out too. The one modelled 500 is the thrown `toLowerCase` in the status patch.
- Column constraints and type coercion are not modelled: the not-null `name`, `lat` and `lng`, `DECIMAL(10,2)`, `DATE` and `FLOAT`. Stored values are the request's JSON scalars.
- Mass assignment through `{ ...req.body }` in laundry create is not modelled: a body cannot set the key or timestamps, and a new laundry always gets the next key.
- `updatedAt` is not modelled. `createdAt` is the handler's `now` parameter and is used only for ordering.
- Joined response columns are not modelled: the laundry's name, address, phone and image, and the booker's name, email and phone. A fetched booking carries only its row and its laundry's `ownerId`. The includes at controllers/bookingController.js:61, 82 and 99 ask for Laundry columns `address`, `phone` and `imageUrl` that models/Laundry.js does not declare; with a schema built by `db.sync()` those queries may fail, and the model's assumption that every store call succeeds includes assuming those columns exist.
- Request values that are JSON arrays or objects are not modelled; a body field holds a scalar.
- BookingController.CreateBooking: `laundryId` is an integer key; a string key that the ORM would coerce is not modelled.
- JsValues.StoredPrice: JavaScript's `Number(s)` on a string is the caller-supplied predicate `numeric`, not its full grammar.
- JsValues.ToLower: maps ASCII letters only; JavaScript's Unicode case mapping is not modelled.
- JsValues.StringLower: gives no text for a number. The numeral `String` would produce is never an allowed status, so no handler outcome depends on it.
- Storage.Database.SaveBooking: requires the row to still be stored. A concurrent delete between the handler's fetch and its `save`, and any other interleaving of requests, is not modelled; requests run one at a time.
