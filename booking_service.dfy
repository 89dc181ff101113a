/** The booking repository (services/bookingService.ts): one storage slot
    holding the list of bookings, the double-booking check, append on add and
    filter on delete. The browser's localStorage and the JSON encoding are
    abstracted: the slot is the field `stored`, and an absent slot is `[]`. */
module BookingService {
  import opened BookingTypes
  import opened ListOps
  import Notification

  const ConflictMessage := "This time slot is already booked. Please choose another one."

  /** `bookings.some(b => b.date === date && b.time === time)`. */
  function SlotTaken(bs: seq<Booking>, date: string, time: string): (taken: bool)
    ensures taken <==> exists i :: 0 <= i < |bs| && bs[i].date == date && bs[i].time == time
  {
    if bs == [] then false
    else (bs[0].date == date && bs[0].time == time) || SlotTaken(bs[1..], date, time)
  }

  /** The predicate `b => b.id !== id`. */
  function IdDiffers(id: string): Booking -> bool
  {
    (b: Booking) => b.id != id
  }

  /** `bookings.filter(b => b.id !== id)`. */
  function WithoutId(bs: seq<Booking>, id: string): (r: seq<Booking>)
    ensures |r| <= |bs|
    ensures forall b :: b in r <==> b in bs && b.id != id
  {
    Filter(bs, IdDiffers(id))
  }

  /** Deleting keeps exactly the records whose id differs, in their original
      order: `idx` lists, ascending, every position of such a record and no
      other, and the result is `bs` read at those positions. An id no record
      carries leaves the list as it was. */
  lemma WithoutIdSelects(bs: seq<Booking>, id: string) returns (idx: seq<int>)
    ensures Embeds(WithoutId(bs, id), bs, idx)
    ensures forall i :: 0 <= i < |bs| ==> (i in idx <==> bs[i].id != id)
    ensures (forall i :: 0 <= i < |bs| ==> bs[i].id != id) ==> WithoutId(bs, id) == bs
  {
    idx := FilterSelects(bs, IdDiffers(id));
    if forall i :: 0 <= i < |bs| ==> bs[i].id != id {
      FilterAllPass(bs, IdDiffers(id));
    }
  }

  /** Deleting by id keeps the no-double-booking invariant. */
  lemma DeleteKeepsNoDoubleBooking(bs: seq<Booking>, id: string)
    requires NoDoubleBooking(bs)
    ensures NoDoubleBooking(WithoutId(bs, id))
  {
    FilterIsSubsequence(bs, IdDiffers(id));
    SubsequenceKeepsNoDoubleBooking(WithoutId(bs, id), bs);
  }

  /** Appending a record to a list without double bookings gives a list
      without double bookings exactly when its slot was free. */
  lemma AppendKeepsNoDoubleBooking(bs: seq<Booking>, b: Booking)
    requires NoDoubleBooking(bs)
    ensures NoDoubleBooking(bs + [b]) <==> !SlotTaken(bs, b.date, b.time)
  {
    var bs' := bs + [b];
    if SlotTaken(bs, b.date, b.time) {
      var i :| 0 <= i < |bs| && bs[i].date == b.date && bs[i].time == b.time;
      assert SameSlot(bs'[i], bs'[|bs|]);
    }
  }

  /** The one localStorage slot the repository reads and overwrites. */
  class BookingStore {
    var stored: seq<Booking>

    /** A store whose slot already holds `initial` ([] when it is absent). */
    constructor (initial: seq<Booking>)
      ensures stored == initial
    {
      stored := initial;
    }

    /** `getBookings`: the stored list, or [] when nothing is stored. */
    method GetBookings() returns (bookings: seq<Booking>)
      ensures bookings == stored
    {
      bookings := stored;
    }

    /** `addBooking`: rejects a candidate whose (date, time) is taken and
        leaves the slot alone; otherwise appends the new record, writes the
        list back and sends the notification, whose text is returned. The
        random `id` and the clock value `createdAt` are supplied by the caller.
        The time label is not checked for being empty here. */
    method AddBooking(booking: Candidate, id: string, createdAt: int)
      returns (result: Result<Booking>, notice: Option<string>)
      modifies this
      ensures SlotTaken(old(stored), booking.date, booking.time) ==>
        result == Err(ConflictMessage) && notice == None && stored == old(stored)
      ensures !SlotTaken(old(stored), booking.date, booking.time) ==>
        && result.Ok?
        && result.value.id == id && result.value.createdAt == createdAt
        && result.value.name == booking.name && result.value.phone == booking.phone
        && result.value.service == booking.service
        && result.value.date == booking.date && result.value.time == booking.time
        && stored == old(stored) + [result.value]
        && notice == Some(Notification.TrimEnd(Notification.Template(result.value)))
      ensures NoDoubleBooking(old(stored)) ==> NoDoubleBooking(stored)
    {
      var bookings := GetBookings();
      var isConflict := SlotTaken(bookings, booking.date, booking.time);
      if isConflict {
        result, notice := Err(ConflictMessage), None;
        return;
      }
      var newBooking := Booking(id, booking.name, booking.phone, booking.service,
                                booking.date, booking.time, createdAt);
      var updatedBookings := bookings + [newBooking];
      if NoDoubleBooking(bookings) {
        AppendKeepsNoDoubleBooking(bookings, newBooking);
      }
      stored := updatedBookings;
      var _, message, _ := Notification.SendSmsNotification(newBooking);
      result, notice := Ok(newBooking), Some(message);
    }

    /** `deleteBooking`: writes back the list without the records carrying
        `id`; an absent id leaves the list as it was. */
    method DeleteBooking(id: string)
      modifies this
      ensures stored == WithoutId(old(stored), id)
      ensures NoDoubleBooking(old(stored)) ==> NoDoubleBooking(stored)
    {
      var bookings := GetBookings();
      var updatedBookings := WithoutId(bookings, id);
      if NoDoubleBooking(bookings) {
        DeleteKeepsNoDoubleBooking(bookings, id);
      }
      stored := updatedBookings;
    }
  }
}
