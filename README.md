# Appointment booking core of the barber-shop site, in Dafny

This project models the appointment booking subsystem of the barber-shop
website and proves its properties.

- **Booking repository** (`BookingService`, services/bookingService.ts). One
  localStorage slot, `ajjubhai_bookings`, holds the list of `Booking` records.
  It is modelled as the class `BookingStore` with one mutable field,
  `stored: seq<Booking>`. An absent slot is `[]`, and the JSON encoding is
  taken as the identity.
  - `getBookings` returns the list.
  - `addBooking` refuses a candidate whose `(date, time)` pair is already
    taken. Otherwise it appends a record with a caller-supplied `id` and
    `createdAt`, writes the list back and sends the notification.
  - `deleteBooking` writes back the list filtered by id.
  - The central invariant is *no double booking*: no two records share a
    `(date, time)` pair. Add and delete both keep it, and a refused add
    leaves the store untouched.
- **Notification stub** (`Notification`). The message template is modelled
  together with JavaScript's `trim()`, using the exact set of characters
  `trim()` strips. A reader `ParseNotification` recovers the five booking
  fields from a message when no field holds a line feed and the time ends
  in a visible character (every slot label does); a round-trip lemma proves
  that it does. A message whose time is empty ends in "Time:" and does not
  parse.
- **Booking form controller** (`BookingForm`, components/BookingForm.tsx).
  It is a class over `formData`, `loading`, `success` and `error` that
  shares the store object.
  - The booked slots of a date are a filter-then-map over the store.
  - A time-slot button is disabled exactly when the repository would refuse
    that slot.
  - The submit, date-change, slot-select and field setters are methods that
    state the whole new state.
- **Admin viewer** (`AdminPanel`, components/AdminPanel.tsx). It is a class
  over `isLoggedIn`, `password`, `bookings` and `error`.
  - A static password gates access.
  - The login effect loads the store sorted newest first. The sort is a
    stable insertion sort, because `Array.prototype.sort` is stable.
  - Delete filters both the store and the shown list. A lemma proves that
    filtering commutes with the sort, so after a delete the shown list is
    exactly what a fresh login would show, provided the shown list was the
    sorted store before the delete.
- `ListOps` holds `Array.prototype.filter` as `Filter`, with its exact
  characterisation. The characterisation says which positions are kept, in
  order, and that the result is a subsequence.
- `Scenarios` holds client methods. They replay the expected behaviour
  (first booking, refused second booking of a slot, same time on another
  date, submit without a time, book → view → delete) from the contracts
  alone.

Two details of the code shape the model:
- `addBooking` itself does not refuse an empty `time`; only the form does
  (components/BookingForm.tsx:26), so `BookingStore.AddBooking` accepts one.
- Malformed stored data makes `JSON.parse` throw, and the model invents no
  recovery.

## Model

| member | source | states |
|---|---|---|
| BookingTypes.SubsequenceKeepsNoDoubleBooking | services/bookingService.ts:41 | any subsequence of a list with no two records on one (date, time) has no such pair either |
| BookingService.SlotTaken | services/bookingService.ts:16-18 | the conflict test is true iff some booking in the list has equal `date` and equal `time` (equal time on another date is no conflict) |
| BookingService.WithoutId | services/bookingService.ts:41 | a record is in the filtered list iff it was in the list and its id differs; the list never grows |
| BookingService.WithoutIdSelects | services/bookingService.ts:39-43 | delete keeps exactly the records whose id differs, in their original order (the ascending list of all their positions); an id no record carries leaves the list unchanged |
| BookingService.DeleteKeepsNoDoubleBooking | services/bookingService.ts:41-42 | deleting by id preserves the no-double-booking invariant |
| BookingService.AppendKeepsNoDoubleBooking | services/bookingService.ts:16-30 | on a list without double bookings, appending a record keeps the invariant iff its slot was not taken |
| BookingService.BookingStore.GetBookings | services/bookingService.ts:7-10 | returns exactly the stored list ([] when nothing is stored) |
| BookingService.BookingStore.AddBooking | services/bookingService.ts:12-37 | on a taken slot: the conflict message "This time slot is already booked. Please choose another one.", store unchanged, no notification; otherwise a record with the candidate's five fields plus the given id and createdAt, the store becomes the old list with it appended, and its notification text is sent; never breaks the no-double-booking invariant |
| BookingService.BookingStore.DeleteBooking | services/bookingService.ts:39-43 | the store becomes the old list without the records carrying the id; the invariant is kept |
| Notification.TrimStart | services/bookingService.ts:53 | the result is a suffix of the input, everything removed is JavaScript whitespace, and it does not start with whitespace |
| Notification.TrimEnd | services/bookingService.ts:53 | the result is a prefix of the input, everything removed is JavaScript whitespace, and it does not end with whitespace |
| Notification.Trim | services/bookingService.ts:53 | what `trim()` keeps is no longer than the input and neither starts nor ends with JavaScript whitespace |
| Notification.TrimIsSlice | services/bookingService.ts:53 | what `trim()` keeps is one contiguous slice of the input with only JavaScript whitespace before and after it |
| Notification.TrimLiteral | services/bookingService.ts:46-53 | a text opened by a line feed and closed by whitespace, itself starting with a visible character, trims to the text with its own trailing whitespace removed |
| Notification.TrimEndIgnoresTrailingWhitespace | services/bookingService.ts:53 | whitespace appended to a string does not change what trimming its end keeps |
| Notification.NotificationMessage | services/bookingService.ts:46-53 | the message is "New Appointment Booked:\nName: …\nPhone: …\nService: …\nDate: …\nTime: …" filled from the booking with trailing whitespace trimmed, and exactly that text when the time ends in a visible character |
| Notification.NotificationRoundTrip | services/bookingService.ts:46-53 | reading the message back yields exactly the booking's name, phone, service, date and time when no field holds a line feed and the time ends in a visible character |
| Notification.SendSmsNotification | services/bookingService.ts:45-68 | addresses +919306155980, the message is the filled template with trailing whitespace trimmed, and the result is true |
| ListOps.Filter | services/bookingService.ts:41 | an element is in the filtered list iff it is in the input and passes; the list never grows |
| ListOps.FilterSelects | components/BookingForm.tsx:45 | the filter keeps exactly the passing elements, in their original order, at the ascending list of their positions |
| ListOps.FilterSnoc | components/BookingForm.tsx:45 | filtering a list with one element appended is the filtered list followed by that element if it passes |
| BookingForm.BookedSlots | components/BookingForm.tsx:44-46 | a label is among the booked slots of a date iff the repository's conflict test would refuse that (date, label) |
| BookingForm.BookedSlotsSelects | components/BookingForm.tsx:44-46 | the booked slots are the `time` of every stored booking whose date equals the form's date and of no other, in store order |
| BookingForm.BookedSlotsDistinct | components/BookingForm.tsx:44-46 | while the store has no double booking, no label appears twice among a date's booked slots |
| BookingForm.BookedSlotsAfterAppend | components/BookingForm.tsx:44-46 | after a booking is appended, its date's booked slots are the previous ones followed by its time; other dates are unchanged |
| BookingForm.SlotDisabledIffTaken | components/BookingForm.tsx:141-148 | the i-th button shows the i-th of the fixed slots and is disabled iff that slot on the form's date is already booked in the store |
| BookingForm.TimeSlotsEndClean | constants.tsx:58-62 | every one of the eleven slot labels ends in a visible character |
| BookingForm.SlotBookingMessage | services/bookingService.ts:46-53 | a booking whose time is a slot label gets exactly the filled template as its notification, nothing trimmed away |
| BookingForm.EmptyForm | components/BookingForm.tsx:9-15 | the initial and reset form: empty name, phone and time, the first service "Classic Haircut", and today's date |
| BookingForm.SlotButtons | components/BookingForm.tsx:141-159 | one button per fixed slot, in order; a button is disabled iff its label is among the booked slots and selected iff it is the chosen time; at most one button is selected |
| BookingForm.BookingFormState.AlreadyBookedSlots | components/BookingForm.tsx:44-46 | a label is among the form's booked slots iff the store's conflict test refuses it on the form's date |
| BookingForm.BookingFormState.constructor | components/BookingForm.tsx:9-18 | the initial form is name '', phone '', service "Classic Haircut", date today, time ''; not loading, no success, no error; the chosen time is empty or a slot label, which every form method keeps |
| BookingForm.BookingFormState.SetName | components/BookingForm.tsx:86 | only the name changes |
| BookingForm.BookingFormState.SetPhone | components/BookingForm.tsx:101 | only the phone changes |
| BookingForm.BookingFormState.SetService | components/BookingForm.tsx:113 | only the service changes |
| BookingForm.BookingFormState.ChangeDate | components/BookingForm.tsx:130 | the date changes and the chosen time is cleared; nothing else changes |
| BookingForm.BookingFormState.SelectSlot | components/BookingForm.tsx:141-149 | a booked (disabled) slot ignores the click; any other slot becomes the chosen time and nothing else changes |
| BookingForm.BookingFormState.BookAnother | components/BookingForm.tsx:63 | the confirmation is dismissed |
| BookingForm.BookingFormState.Submit | components/BookingForm.tsx:20-42 | loading is false afterwards; no time: error "Please select a time slot.", store and form untouched; taken slot: error is the conflict message, store, form and success untouched; otherwise success, error cleared, the form reset to its defaults with today's date and the booking appended to the store; the invariant is kept |
| AdminPanel.Insert | components/AdminPanel.tsx:16 | inserting adds exactly that record to the multiset of records |
| AdminPanel.InsertKeepsNewestFirst | components/AdminPanel.tsx:16 | inserting into a newest-first list keeps it newest first |
| AdminPanel.SortNewestFirst | components/AdminPanel.tsx:16 | the sorted list is a permutation of its input, ordered by `createdAt` descending |
| AdminPanel.SortKeepsTies | components/AdminPanel.tsx:16 | the sort is stable: records with equal `createdAt` keep their relative store order |
| AdminPanel.SubsequenceKeepsNewestFirst | components/AdminPanel.tsx:33 | every subsequence of a newest-first list is newest first |
| AdminPanel.DeleteKeepsNewestFirst | components/AdminPanel.tsx:33 | removing an id from the shown list keeps it sorted |
| AdminPanel.DeleteCommutesWithSort | components/AdminPanel.tsx:30-34 | removing an id from the sorted store gives the sort of the store without that id |
| AdminPanel.AdminPanelState.constructor | components/AdminPanel.tsx:9-12 | logged out, empty password, empty list, no error |
| AdminPanel.AdminPanelState.SetPassword | components/AdminPanel.tsx:47 | only the typed password changes |
| AdminPanel.AdminPanelState.Login | components/AdminPanel.tsx:14-28 | password "admin123": logged in with no error and, coming from logged out, the shown list is a permutation of the store sorted newest first; any other password: error "Invalid password", login state and list unchanged |
| AdminPanel.AdminPanelState.Delete | components/AdminPanel.tsx:30-35 | confirmed: the store and the shown list both lose exactly the records with that id, in order; unconfirmed: neither changes; the shown list stays sorted, stays equal to the sorted store if it was, and the invariant is kept |
| AdminPanel.AdminPanelState.Logout | components/AdminPanel.tsx:63 | logged out |

## Left out

- The browser's localStorage and `JSON.stringify`/`JSON.parse` are replaced by the `stored` field. An absent slot and a stored empty list read the same, because `getBookings` maps both to []. Storage quota errors are not modelled.
- `Math.random` ids, `Date.now()` and today's date (`new Date().toISOString()`) are method parameters. The code does not guarantee unique or non-empty ids. If two records share an id, one delete removes both, and the model shows exactly that.
- `createdAt` is an unbounded integer. Fractional, NaN or out-of-range numbers, and the comparator's floating-point subtraction on them, are not modelled.
- async/await is not modelled. `Submit` is one atomic step, so the state in which `loading` is true while `addBooking` is awaited is not observable. The notification cannot fail in the code (it returns `true`), so no failure path exists.
- The console styling argument `%c…` and the commented-out Twilio `fetch` are left out. `window.confirm` is the boolean argument of `Delete`.
- The browser's constraint validation is left out. The name, phone and date inputs are `required`, and the date input has a `min`. When these constraints fail, the browser never calls `handleSubmit`, so `Submit` models `handleSubmit` as if it were always called.
- `SelectSlot` takes only labels from `TIME_SLOTS`, because only those buttons exist.
- `SelectSlot` tests the store as it is at the click, as if the form had rendered after the last store change. In the app the form and the admin panel sit side by side, and an admin delete re-renders only the panel, so a slot freed that way stays disabled in the form until the form renders again. The model does not capture that stale button.
- JSX rendering, CSS classes, icons, animations, and the choice between the confirmation view and the form view are left out. App.tsx, components/Logo3D.tsx and the rest of constants.tsx are presentation. Only `TIME_SLOTS` and `SERVICES[0].name` are used, as constants.
- Concurrent tabs sharing one store are not modelled. Each method runs to completion before the next begins.
- The admin list is not refreshed when a booking is added while an admin is logged in. The model keeps that stale list, as the code does, and states its relation to the store only across deletes.
