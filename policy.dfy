/**
 * The authorization policy of the booking controller: three side-effect-free
 * predicates over a booking as fetched with its laundry's `ownerId` attached.
 */
module Policy {
  import opened Wrappers
  import opened Table
  import opened Records

  /** A booking loaded with `include: Laundry`: the row and the owner of its laundry, if any. */
  datatype Fetched = Fetched(row: Row<Booking>, laundryOwner: Option<Id>)

  /** The users with a stake in a booking: its laundry's owner and its booker, where present. */
  function Parties(f: Fetched): (r: set<Id>)
    ensures forall a :: a in r <==> f.laundryOwner == Some(a) || f.row.fields.userId == Some(a)
  {
    (if f.laundryOwner.Some? then {f.laundryOwner.value} else {})
      + (if f.row.fields.userId.Some? then {f.row.fields.userId.value} else {})
  }

  /** `canOwnerModify`: the actor owns the booking's laundry. */
  predicate CanOwnerModify(f: Fetched, actor: Id) {
    f.laundryOwner == Some(actor)
  }

  /** `canUserModifyOwn`: the actor made the booking. */
  predicate CanUserModifyOwn(f: Fetched, actor: Id) {
    f.row.fields.userId == Some(actor)
  }

  /** `canView`: the actor is the laundry's owner or the booker, and nobody else. */
  function CanView(f: Fetched, actor: Id): (r: bool)
    ensures r <==> actor in Parties(f)
    ensures r <==> CanOwnerModify(f, actor) || CanUserModifyOwn(f, actor)
  {
    var isOwner := f.laundryOwner == Some(actor);
    var isBooker := f.row.fields.userId == Some(actor);
    isOwner || isBooker
  }

  /** A booking with no attached laundry is visible to its booker only. */
  lemma OrphanVisibleOnlyToBooker(f: Fetched, actor: Id)
    requires f.laundryOwner.None?
    ensures CanView(f, actor) <==> f.row.fields.userId == Some(actor)
    ensures !CanOwnerModify(f, actor)
  {
  }
}
