/** The booking form controller (components/BookingForm.tsx) without its
    rendering: the slots already taken on the chosen date, which of the fixed
    time-slot buttons are disabled, and the state transitions of `formData`,
    `loading`, `success` and `error` on input, slot selection and submit. */
module BookingForm {
  import opened BookingTypes
  import opened ListOps
  import opened BookingService
  import Notification

  /** `TIME_SLOTS` (constants.tsx), in display order. */
  const TimeSlots: seq<string> := [
    "09:00 AM", "10:00 AM", "11:00 AM", "12:00 PM",
    "02:00 PM", "03:00 PM", "04:00 PM", "05:00 PM",
    "06:00 PM", "07:00 PM", "08:00 PM"]

  /** `SERVICES[0].name` (constants.tsx). */
  const DefaultService := "Classic Haircut"

  const MissingTimeMessage := "Please select a time slot."

  /** Shown when a thrown error carries an empty message. */
  const FallbackErrorMessage := "An error occurred during booking."

  /** The initial `formData`, and the one a successful submit resets to;
      `today` is the current date as `YYYY-MM-DD`. */
  function EmptyForm(today: string): (f: Candidate)
    ensures f.name == "" && f.phone == "" && f.time == ""
    ensures f.service == DefaultService && f.date == today
  {
    Candidate("", "", DefaultService, today, "")
  }

  /** The time of every booking of a list, in order: `.map(b => b.time)`. */
  function Times(bs: seq<Booking>): seq<string>
  {
    seq(|bs|, i requires 0 <= i < |bs| => bs[i].time)
  }

  /** The predicate `b => b.date === date`. */
  function OnDate(date: string): Booking -> bool
  {
    (b: Booking) => b.date == date
  }

  /** `getBookings().filter(b => b.date === date).map(b => b.time)`. */
  function BookedSlots(bs: seq<Booking>, date: string): (r: seq<string>)
    ensures |r| <= |bs|
    ensures forall t :: t in r <==> SlotTaken(bs, date, t)
  {
    TimesOnDate(bs, date);
    Times(Filter(bs, OnDate(date)))
  }

  lemma TimesOnDate(bs: seq<Booking>, date: string)
    ensures forall t :: t in Times(Filter(bs, OnDate(date))) <==> SlotTaken(bs, date, t)
  {
    var onDate := Filter(bs, OnDate(date));
    forall t
      ensures t in Times(onDate) <==> SlotTaken(bs, date, t)
    {
      if t in Times(onDate) {
        var k :| 0 <= k < |onDate| && Times(onDate)[k] == t;
        assert onDate[k] in onDate;
        var i :| 0 <= i < |bs| && bs[i] == onDate[k];
      }
      if SlotTaken(bs, date, t) {
        var i :| 0 <= i < |bs| && bs[i].date == date && bs[i].time == t;
        assert bs[i] in onDate;
        var k :| 0 <= k < |onDate| && onDate[k] == bs[i];
        assert Times(onDate)[k] == t;
      }
    }
  }

  /** The booked slots are the times of the bookings on that date, in store
      order: `idx` lists, ascending, exactly the positions of bookings on
      `date`, and the result is their `time` fields read in that order. */
  lemma BookedSlotsSelects(bs: seq<Booking>, date: string) returns (idx: seq<int>)
    ensures |idx| == |BookedSlots(bs, date)| && Ascending(idx, |bs|)
    ensures forall k :: 0 <= k < |idx| ==> BookedSlots(bs, date)[k] == bs[idx[k]].time
    ensures forall i :: 0 <= i < |bs| ==> (i in idx <==> bs[i].date == date)
  {
    idx := FilterSelects(bs, OnDate(date));
  }

  /** While the store has no double booking, no label appears twice among the
      booked slots of a date. */
  lemma BookedSlotsDistinct(bs: seq<Booking>, date: string)
    requires NoDoubleBooking(bs)
    ensures forall i, j :: 0 <= i < j < |BookedSlots(bs, date)| ==>
      BookedSlots(bs, date)[i] != BookedSlots(bs, date)[j]
  {
    var onDate := Filter(bs, OnDate(date));
    FilterIsSubsequence(bs, OnDate(date));
    SubsequenceKeepsNoDoubleBooking(onDate, bs);
    forall i, j | 0 <= i < j < |onDate|
      ensures onDate[i].time != onDate[j].time
    {
      assert onDate[i] in onDate && onDate[j] in onDate;
      assert !SameSlot(onDate[i], onDate[j]);
    }
  }

  /** A successful add makes its slot show as booked on its date, after the
      slots booked before; other dates are unaffected. */
  lemma BookedSlotsAfterAppend(bs: seq<Booking>, b: Booking, date: string)
    ensures BookedSlots(bs + [b], date)
         == BookedSlots(bs, date) + (if b.date == date then [b.time] else [])
  {
    FilterSnoc(bs, b, OnDate(date));
  }

  /** One rendered time-slot button. */
  datatype SlotButton = SlotButton(text: string, disabled: bool, selected: bool)

  /** `TIME_SLOTS.map(slot => …)`: a button per slot, disabled when the slot
      is in `booked`, selected when it is the chosen time. */
  function SlotButtons(booked: seq<string>, chosen: string): (r: seq<SlotButton>)
    ensures |r| == |TimeSlots|
    ensures forall i :: 0 <= i < |r| ==>
      && r[i].text == TimeSlots[i]
      && (r[i].disabled <==> TimeSlots[i] in booked)
      && (r[i].selected <==> TimeSlots[i] == chosen)
    ensures forall i, j :: 0 <= i < j < |r| && r[i].selected ==> !r[j].selected
  {
    seq(|TimeSlots|, i requires 0 <= i < |TimeSlots| =>
      SlotButton(TimeSlots[i], TimeSlots[i] in booked, chosen == TimeSlots[i]))
  }

  /** A slot button is disabled exactly when the repository would reject that
      slot on the selected date as a double booking. */
  lemma SlotDisabledIffTaken(bs: seq<Booking>, date: string, chosen: string, i: int)
    requires 0 <= i < |TimeSlots|
    ensures SlotButtons(BookedSlots(bs, date), chosen)[i].text == TimeSlots[i]
    ensures SlotButtons(BookedSlots(bs, date), chosen)[i].disabled
        <==> SlotTaken(bs, date, TimeSlots[i])
  {
  }

  /** Every slot label ends in a visible character, so the notification of a
      booking made through the form reproduces its time exactly. */
  lemma TimeSlotsEndClean()
    ensures forall i :: 0 <= i < |TimeSlots| ==> Notification.EndsClean(TimeSlots[i])
  {
  }

  /** The notification of a booking whose time is one of the slot labels is
      exactly the filled template: `trim()` removes nothing the operator
      needs, so the round trip recovers all five fields. */
  lemma SlotBookingMessage(b: Booking)
    requires b.time in TimeSlots
    ensures Notification.NotificationMessage(b) == Notification.Template(b)
  {
    TimeSlotsEndClean();
  }

  /** The form's component state; `store` is the repository it books into. */
  class BookingFormState {
    const store: BookingStore
    var formData: Candidate
    var loading: bool
    var success: bool
    var error: string

    /** The chosen time is empty or one of the slot labels: only the slot
        buttons set it, and the date input and a successful submit clear it. */
    ghost predicate TimeFromSlots()
      reads this
    {
      formData.time == "" || formData.time in TimeSlots
    }

    constructor (store: BookingStore, today: string)
      ensures this.store == store
      ensures formData == EmptyForm(today) && !loading && !success && error == ""
      ensures TimeFromSlots()
    {
      this.store := store;
      formData := EmptyForm(today);
      loading, success, error := false, false, "";
    }

    /** `alreadyBookedSlots`, recomputed from the store at every render. */
    function AlreadyBookedSlots(): (r: seq<string>)
      reads this, store
      ensures forall t :: t in r <==> SlotTaken(store.stored, formData.date, t)
    {
      BookedSlots(store.stored, formData.date)
    }

    /** The name input's `onChange`. */
    method SetName(value: string)
      modifies this`formData
      ensures formData == old(formData).(name := value)
      ensures old(TimeFromSlots()) ==> TimeFromSlots()
    {
      formData := formData.(name := value);
    }

    /** The phone input's `onChange`. */
    method SetPhone(value: string)
      modifies this`formData
      ensures formData == old(formData).(phone := value)
      ensures old(TimeFromSlots()) ==> TimeFromSlots()
    {
      formData := formData.(phone := value);
    }

    /** The service select's `onChange`. */
    method SetService(value: string)
      modifies this`formData
      ensures formData == old(formData).(service := value)
      ensures old(TimeFromSlots()) ==> TimeFromSlots()
    {
      formData := formData.(service := value);
    }

    /** The date input's `onChange`: a new date clears the chosen time. */
    method ChangeDate(value: string)
      modifies this`formData
      ensures formData == old(formData).(date := value, time := "")
      ensures TimeFromSlots()
    {
      formData := formData.(date := value, time := "");
    }

    /** A click on the button of `slot`: a disabled (booked) button ignores
        the click, any other sets the chosen time and nothing else. */
    method SelectSlot(slot: string)
      requires slot in TimeSlots
      modifies this`formData
      ensures slot in old(AlreadyBookedSlots()) ==> formData == old(formData)
      ensures slot !in old(AlreadyBookedSlots()) ==> formData == old(formData).(time := slot)
      ensures formData.time == old(formData).time || !SlotTaken(store.stored, formData.date, formData.time)
      ensures old(TimeFromSlots()) ==> TimeFromSlots()
    {
      var booked := BookedSlots(store.stored, formData.date);
      var isBooked := slot in booked;
      if !isBooked {
        formData := formData.(time := slot);
      }
    }

    /** The "Book Another" button. */
    method BookAnother()
      modifies this`success
      ensures !success
    {
      success := false;
    }

    /** `handleSubmit`. `id` and `createdAt` are the values `addBooking` draws
        from `Math.random` and `Date.now`, `today` the date the reset uses. */
    method Submit(id: string, createdAt: int, today: string)
      modifies this, store
      ensures !loading
      ensures old(formData).time == "" ==>
        && error == MissingTimeMessage && formData == old(formData) && success == old(success)
        && store.stored == old(store.stored)
      ensures old(formData).time != "" && SlotTaken(old(store.stored), old(formData).date, old(formData).time) ==>
        && error == ConflictMessage && formData == old(formData) && success == old(success)
        && store.stored == old(store.stored)
      ensures old(formData).time != "" && !SlotTaken(old(store.stored), old(formData).date, old(formData).time) ==>
        && success && error == "" && formData == EmptyForm(today)
        && store.stored == old(store.stored) + [Booking(id, old(formData).name, old(formData).phone,
             old(formData).service, old(formData).date, old(formData).time, createdAt)]
      ensures NoDoubleBooking(old(store.stored)) ==> NoDoubleBooking(store.stored)
      ensures old(TimeFromSlots()) ==> TimeFromSlots()
    {
      loading := true;
      error := "";
      if formData.time == "" {
        error := MissingTimeMessage;
      } else {
        var result, _ := store.AddBooking(formData, id, createdAt);
        match result {
          case Ok(_) =>
            success := true;
            formData := EmptyForm(today);
          case Err(message) =>
            error := if message != "" then message else FallbackErrorMessage;
        }
      }
      loading := false;
    }
  }
}
