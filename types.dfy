/** The record shapes shared by the booking repository, the booking form and
    the admin viewer (types.ts), and two wrappers: `Option` for a value that
    may be absent (the notice of an add, a message that does not parse) and
    `Result` for a call that may throw. */
module BookingTypes {
  import opened ListOps

  datatype Option<T> = None | Some(value: T)

  /** A call that either returns a value or throws an `Error` carrying a message. */
  datatype Result<T> = Ok(value: T) | Err(message: string)

  /** One stored appointment. `createdAt` is milliseconds since the epoch. */
  datatype Booking = Booking(
    id: string,
    name: string,
    phone: string,
    service: string,
    date: string,
    time: string,
    createdAt: int)

  /** What a caller hands to `addBooking`: a Booking without `id` and `createdAt`.
      The booking form's `formData` has exactly this shape too. */
  datatype Candidate = Candidate(
    name: string,
    phone: string,
    service: string,
    date: string,
    time: string)

  /** Two bookings occupy the same calendar slot. */
  predicate SameSlot(a: Booking, b: Booking)
  {
    a.date == b.date && a.time == b.time
  }

  /** The no-double-booking invariant: no two records share a (date, time) pair. */
  ghost predicate NoDoubleBooking(bs: seq<Booking>)
  {
    forall i, j :: 0 <= i < j < |bs| ==> !SameSlot(bs[i], bs[j])
  }

  /** Every subsequence of a list without double bookings has none either. */
  lemma SubsequenceKeepsNoDoubleBooking(sub: seq<Booking>, s: seq<Booking>)
    requires IsSubsequence(sub, s)
    requires NoDoubleBooking(s)
    ensures NoDoubleBooking(sub)
  {
    var idx :| Embeds(sub, s, idx);
    forall i, j | 0 <= i < j < |sub|
      ensures !SameSlot(sub[i], sub[j])
    {
      assert sub[i] == s[idx[i]] && sub[j] == s[idx[j]];
    }
  }
}
