/** Client code that drives the form, the repository and the admin panel over
    one shared store, proving the expected outcome of each scenario from the
    contracts alone. */
module Scenarios {
  import opened BookingTypes
  import opened BookingService
  import opened BookingForm
  import opened AdminPanel

  const Raj := Candidate("Raj", "+911234567890", "Classic Haircut", "2024-06-01", "09:00 AM")

  /** An empty store takes a first booking, which is then all it holds. */
  method FirstBooking()
  {
    var store := new BookingStore([]);
    var r, notice := store.AddBooking(Raj, "k3x9q2m1a", 1717200000000);
    assert r.Ok? && r.value.name == "Raj" && r.value.id == "k3x9q2m1a";
    assert store.stored == [r.value];
    assert notice.Some?;
  }

  /** A second booking of the same date and time is refused and the store
      keeps its single record. */
  method SecondBookingOfSlotRefused()
  {
    var store := new BookingStore([]);
    var first, _ := store.AddBooking(Raj, "a1", 1);
    var second, _ := store.AddBooking(Raj.(name := "Amit"), "a2", 2);
    assert second == Err(ConflictMessage);
    assert |store.stored| == 1;
  }

  /** The same time label on two different dates is no conflict. */
  method SameTimeOnAnotherDate()
  {
    var store := new BookingStore([]);
    var first, _ := store.AddBooking(Raj, "a1", 1);
    var second, _ := store.AddBooking(Raj.(date := "2024-06-02"), "a2", 2);
    assert first.Ok? && second.Ok?;
    assert |store.stored| == 2 && NoDoubleBooking(store.stored);
  }

  /** A submit without a chosen time slot never reaches the store. */
  method SubmitWithoutTime()
  {
    var store := new BookingStore([]);
    var form := new BookingFormState(store, "2024-06-01");
    form.SetName("Raj");
    form.Submit("a1", 1, "2024-06-01");
    assert form.error == MissingTimeMessage && !form.loading;
    assert store.stored == [];
  }

  /** A booking made through the form disables its slot, shows on the admin
      list, and disappears from both the store and the list after a
      confirmed delete. */
  method BookViewAndDelete()
  {
    var store := new BookingStore([]);
    var form := new BookingFormState(store, "2024-06-01");
    form.SelectSlot("09:00 AM");
    assert form.formData.time == "09:00 AM";
    form.Submit("a1", 1, "2024-06-01");
    assert form.success && form.formData == EmptyForm("2024-06-01");
    assert store.stored == [Booking("a1", "", "", DefaultService, "2024-06-01", "09:00 AM", 1)];
    SlotDisabledIffTaken(store.stored, "2024-06-01", "", 0);
    assert SlotButtons(form.AlreadyBookedSlots(), "")[0].disabled;

    var panel := new AdminPanelState(store);
    panel.SetPassword("admin123");
    panel.Login();
    assert panel.isLoggedIn && panel.bookings == SortNewestFirst(store.stored);
    panel.Delete("a1", true);
    assert panel.bookings == SortNewestFirst(store.stored);
    assert store.stored == [];
  }
}
