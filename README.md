# Salon booking: a Dafny model

This project models the logic of a salon booking web app. Customers book a service in a five-step wizard:
- date;
- time;
- details;
- payment slip;
- confirmation.

An administrator manages opening hours ("availability ranges") and approves or rejects booking requests. All state lives in one client-side store, which holds:
- the service catalogue (four men's and five women's services);
- the availability ranges, each with one time slot per whole hour;
- the bookings;
- the draft booking the wizard fills in step by step.

Each source file of the core is one Dafny module:

| module | file | models |
|---|---|---|
| `JsText` (with `Options`) | `js_text.dfy` | The JavaScript built-ins the core relies on: `parseInt` (white space, sign, `0x`, `NaN` as `None`), `Number#toString`, `padStart`, `split(':')[0]`, `trim` and its white-space set. |
| `SalonStore` | `salon_store.dfy` | The types, the seed data and the store. The store is a class `Store` whose `seq` fields its commands reassign. |
| `AvailabilityManager` | `availability_manager.dfy` | The hourly slot generator (a loop proved against `TimeSlotsFor`), the 12-hour display and the add-range dialog. |
| `TimeSelection` | `time_selection.dfy` | The offered range, the booked times and the slot picker. |
| `BookingPage` | `booking_page.dfy` | The wizard's steps and its next, back and reset moves. |
| `BookingForm` | `booking_form.dfy` | The details form: its validation, its handlers and the hand-over to the draft. |
| `AppointmentRequests` | `appointment_requests.dfy` | The admin's status filter, the detail dialog and the approve/reject actions. |
| `PaymentUpload` | `payment_upload.dfy` | The JPEG/PNG guard, slip removal and the submit that creates the booking. |
| `Scenario` | `scenario.dfy` | One run through the system: open a week of hours, book, approve. |

Each screen is a class holding `const store: Store` plus its own React state as fields. Each handler is a method whose `modifies` clause names what it changes. A callback such as `onNext` becomes a returned `advance` flag.

Two properties hold in the screens but are not enforced by the store; the model proves both gaps:
- **Status changes.** The store accepts any status change. The admin screen offers approve and reject only for pending bookings (`AppointmentRequests.StoreAcceptsAnyTransition`, `SalonStore.SetStatusLastWins`).
- **Double booking.** `addBooking` makes no conflict check. A booked time is hidden only by the time picker, so the store takes a second booking for a held date and time (`SalonStore.AddBookingAcceptsDoubleBooking`). `Scenario.BookAndApprove` shows this happening to a seeded booking.

Three behaviours of the code a reader might not expect:
- **Hour order.** Opening and closing hours need not be ordered: a closing hour before the opening hour gives an empty slot list rather than an error (`AvailabilityManager.TimeSlotsFor`).
- **Ids.** Range and booking ids are `avail-`/`booking-` followed by the clock reading, so they are unique only if the clock readings are (`SalonStore.BookingIdsFollowClock`). A reading of 1, 2 or 3 would give a new booking the id of a seed booking, and `Scenario.BookAndApprove` excludes those readings.
- **Status changes.** Status changes are not limited to approve and reject of a pending booking at the store level (see above).

## Model

| member | source | states |
|---|---|---|
| JsText.TrimEmptyIffAllSpace | src/components/booking/BookingForm.tsx:52-56 | `trim()` gives the empty string exactly when every character is JavaScript white space. |
| JsText.HourLabelShape | src/components/admin/AvailabilityManager.tsx:43 | `hour.toString().padStart(2, '0')` is the decimal numeral of the hour, with a leading zero for 0 to 9. A negative hour gets a minus sign. |
| JsText.NatToStringInjective | src/store/salonStore.ts:264 | Two whole numbers have the same decimal text exactly when they are equal. |
| JsText.IntToStringInjective | src/components/admin/AvailabilityManager.tsx:45 | Two integers have the same `toString` text exactly when they are equal. |
| JsText.HourLabelParses | src/components/admin/AvailabilityManager.tsx:39-43 | `parseInt` of an hour label followed by nothing or by a colon-led tail gives back the hour. |
| JsText.MinutesIgnored | src/components/admin/AvailabilityManager.tsx:39-40 | `parseInt(time.split(':')[0])` does not depend on anything after the first colon. |
| SalonStore.HourSlotsAt | src/store/salonStore.ts:128-135 | The hourly slot list has one slot per hour from the first to the last, and slot `i` is the slot for hour `first + i`. |
| SalonStore.SeedTimeSlots | src/store/salonStore.ts:126-137 | The seed loop builds the slots for 9 to 19, eleven of them, each available as the random draw says. |
| SalonStore.FindService | src/store/salonStore.ts:232 | `find` returns a member with the id, namely the first one, and returns nothing exactly when no member has the id. |
| SalonStore.FindServiceFindsEach | src/store/salonStore.ts:231-233 | In a catalogue with distinct ids, looking up any service's id returns that service. |
| SalonStore.CatalogueIdsDistinct | src/store/salonStore.ts:47-123 | The nine seed services have distinct ids. |
| SalonStore.RangesWithout | src/store/salonStore.ts:246-250 | After removal, a range is in the list exactly when it was there before and carries another id. |
| SalonStore.RangesWithoutLength | src/store/salonStore.ts:246-250 | Removal shortens the list by exactly the number of ranges carrying the id. |
| SalonStore.RangesWithoutAppend | src/store/salonStore.ts:246-250 | Removal keeps the survivors' order: it distributes over concatenation. |
| SalonStore.RangesWithoutUnknown | src/store/salonStore.ts:246-250 | Removing an id that no range carries leaves the list unchanged. |
| SalonStore.PatchRangesAt | src/store/salonStore.ts:251-257 | An update keeps the length and every range with another id. Each matching range becomes the patched range. |
| SalonStore.PatchRangeFields | src/store/salonStore.ts:254 | A patched range takes each field the patch names and keeps each field it does not. The empty patch changes nothing. |
| SalonStore.NewBookingCopiesInput | src/store/salonStore.ts:261-267 | A new booking copies the caller's fields verbatim, is `pending`, and carries the generated id and timestamp. |
| SalonStore.SetStatusAt | src/store/salonStore.ts:272-278 | A status update keeps the length. In bookings with the id it changes only `status`; all other bookings are unchanged. |
| SalonStore.SetStatusLastWins | src/store/salonStore.ts:272-278 | Any status overwrites any other: after two updates, only the second counts. |
| SalonStore.AddBookingAcceptsDoubleBooking | src/store/salonStore.ts:261-271 | Adding a booking for a date and time that a non-rejected booking already holds leaves two holders of that slot. |
| SalonStore.BookingIdsFollowClock | src/store/salonStore.ts:264 | Two generated booking ids are equal exactly when the clock readings are equal. |
| SalonStore.MergeLastWriteWins | src/store/salonStore.ts:282-286 | Two merges in a row equal one merge of the combined patch, in which the later value of each field wins. |
| SalonStore.MergeNothing | src/store/salonStore.ts:284 | Merging the empty patch leaves the draft unchanged. |
| SalonStore.MergeTimeSlotOnly | src/store/salonStore.ts:282-286 | A patch naming only the time slot changes only the time slot. |
| SalonStore.Store.constructor | src/store/salonStore.ts:227-281 | The store starts with the two seed catalogues, the three seed ranges (hours 9 to 19, availability drawn), the three seed bookings and an empty draft. |
| SalonStore.Store.GetServiceById | src/store/salonStore.ts:231-233 | The result is a catalogue service with the id, or nothing exactly when no service has the id. It reads no store state. |
| SalonStore.Store.AddAvailabilityRange | src/store/salonStore.ts:237-245 | Exactly one range is appended: it has the caller's type, dates and slots and the id `avail-<clock>`. Earlier ranges and the other fields are unchanged. |
| SalonStore.Store.RemoveAvailabilityRange | src/store/salonStore.ts:246-250 | The ranges become the filtered list `RangesWithout`. The other fields are unchanged. |
| SalonStore.Store.UpdateAvailabilityRange | src/store/salonStore.ts:251-257 | The ranges become the mapped list `PatchRanges`. The other fields are unchanged. |
| SalonStore.Store.AddBooking | src/store/salonStore.ts:261-271 | Exactly one pending booking is appended with the caller's fields. Earlier bookings, ranges and draft are unchanged, and no check is made. |
| SalonStore.Store.UpdateBookingStatus | src/store/salonStore.ts:272-278 | The bookings become `SetStatus` of the old bookings. Ranges and draft are unchanged. |
| SalonStore.Store.SetCurrentBooking | src/store/salonStore.ts:282-286 | The draft becomes the shallow merge of the old draft and the patch. |
| SalonStore.Store.ResetCurrentBooking | src/store/salonStore.ts:287-289 | The draft is empty whatever it held, so a second reset changes nothing. |
| AvailabilityManager.TimeSlotsFor | src/components/admin/AvailabilityManager.tsx:37-51 | The list is empty when either time has no hour. Otherwise it has `end - start + 1` slots, or none when `start > end`. |
| AvailabilityManager.GenerateTimeSlots | src/components/admin/AvailabilityManager.tsx:37-51 | The counting loop returns exactly `TimeSlotsFor(startTime, endTime)`. |
| AvailabilityManager.GeneratedSlotAt | src/components/admin/AvailabilityManager.tsx:42-48 | Slot `n` is the available slot for hour `start + n`: id `slot-<hour>`, time `<hour, two digits>:00`. |
| AvailabilityManager.SlotTimeReadsBack | src/components/admin/AvailabilityManager.tsx:39-43 | Reading a slot's time back with `parseInt(time.split(':')[0])` gives the slot's hour. |
| AvailabilityManager.HourSlotsReadBack | src/components/admin/AvailabilityManager.tsx:42-46 | The time of slot `i` reads back as hour `start + i`, so the times strictly increase. |
| AvailabilityManager.HourSlotTimesDistinct | src/components/admin/AvailabilityManager.tsx:42-49 | No two slots of one generated list share a time. |
| AvailabilityManager.HourSlotIds | src/components/admin/AvailabilityManager.tsx:45 | Slot `i` has id `slot-` followed by `toString` of hour `start + i`, without padding. |
| AvailabilityManager.HourSlotIdsDistinct | src/components/admin/AvailabilityManager.tsx:45 | No two slots of one generated list share an id. |
| AvailabilityManager.MinutesDoNotMatter | src/components/admin/AvailabilityManager.tsx:39-40 | Changing the minutes of either bound does not change the generated list. |
| AvailabilityManager.DefaultHoursMatchSeed | src/components/admin/AvailabilityManager.tsx:33-34 | The default `09:00` to `19:00` gives the eleven available slots for the hours 9 to 19. |
| AvailabilityManager.DisplayHour | src/components/admin/AvailabilityManager.tsx:76 | Hours 0 to 23 show as 1 to 12: above 12 the hour drops 12, and 0 shows as 12. |
| AvailabilityManager.DisplayHourRoundTrip | src/components/admin/AvailabilityManager.tsx:75-76 | The clock-face hour and the AM/PM half give back the hour of the day. |
| AvailabilityManager.FormatTimeDisplay | src/components/admin/AvailabilityManager.tsx:72-78 | A time without a readable hour shows as `NaN:00 AM`; any other time shows as its hour's clock text (tabulated by `ClockTextTable`). |
| AvailabilityManager.ClockTextTable | src/components/admin/AvailabilityManager.tsx:72-78 | 0 shows as `12:00 AM`, 1 to 11 as `h:00 AM`, 12 as `12:00 PM`, and 13 to 23 as `(h-12):00 PM`. |
| AvailabilityManager.ClockTextInjective | src/components/admin/AvailabilityManager.tsx:75-77 | Within a day, two hours display alike exactly when they are equal. |
| AvailabilityManager.SlotDisplay | src/components/booking/TimeSelection.tsx:42-48 | A generated slot displays as its own hour's clock text. |
| AvailabilityManager.SlotDisplaysDistinct | src/components/booking/TimeSelection.tsx:42-48 | Two slots of one day display alike exactly when they are for the same hour. |
| AvailabilityManager.Dialog.constructor | src/components/admin/AvailabilityManager.tsx:28-35 | The dialog starts closed, with the weekly form and the hours 09:00 to 19:00. |
| AvailabilityManager.Dialog.Open | src/components/admin/AvailabilityManager.tsx:185 | Opening shows the dialog and keeps the form. |
| AvailabilityManager.Dialog.Cancel | src/components/admin/AvailabilityManager.tsx:165 | Cancel closes the dialog and keeps what was typed. |
| AvailabilityManager.Dialog.Edit | src/components/admin/AvailabilityManager.tsx:110-158 | Typing replaces the form and leaves the dialog as it was. |
| AvailabilityManager.Dialog.HandleSubmit | src/components/admin/AvailabilityManager.tsx:53-70 | With both dates non-empty, one range with the generated slots is added, the dialog closes and the form resets. Otherwise nothing changes. No start-before-end check is made. |
| AvailabilityManager.Dialog.Remove | src/components/admin/AvailabilityManager.tsx:227 | The Remove button removes every range with that id. |
| TimeSelection.SelectedRange | src/components/booking/TimeSelection.tsx:17-24 | The offered range is the first range whenever there is one, and none otherwise. |
| TimeSelection.BookedSlots | src/components/booking/TimeSelection.tsx:27-29 | There are at most as many booked times as bookings. A draft without a date blocks nothing. |
| TimeSelection.BookedSlotsHeld | src/components/booking/TimeSelection.tsx:27-29 | A time is booked on a date exactly when a pending or approved booking on that date holds it. |
| TimeSelection.BookedSlotsAppend | src/components/booking/TimeSelection.tsx:27-29 | Booked times keep booking order: the function distributes over concatenation. |
| TimeSelection.RejectedNeverBlocks | src/components/booking/TimeSelection.tsx:28 | Adding a rejected booking changes no booked time. |
| TimeSelection.LiveBookingBlocks | src/components/booking/TimeSelection.tsx:28-29 | Adding a pending or approved booking on the date appends its time. |
| TimeSelection.AvailableIffFree | src/components/booking/TimeSelection.tsx:67-68 | A slot can be picked exactly when it is marked available and no pending or approved booking on the date holds its time. |
| TimeSelection.InitialSelection | src/components/booking/TimeSelection.tsx:14 | The selection starts as the draft's time slot when that is present and non-empty, and as nothing otherwise. |
| TimeSelection.Picker.constructor | src/components/booking/TimeSelection.tsx:14 | The picker starts from `InitialSelection` of the draft. |
| TimeSelection.Picker.OfferedSlots | src/components/booking/TimeSelection.tsx:66 | The offered slots are the first range's slots, or none when there is no range. |
| TimeSelection.Picker.HandleTimeSelect | src/components/booking/TimeSelection.tsx:31-34 | Selecting records the time and sets the draft's time slot, leaving every other draft field and the store's lists unchanged. |
| TimeSelection.Picker.HandleSlotClick | src/components/booking/TimeSelection.tsx:74 | A click on an unavailable slot changes nothing. A click on an available one selects its time. |
| TimeSelection.Picker.HandleContinue | src/components/booking/TimeSelection.tsx:36-40 | Continue advances exactly when a non-empty time is selected. |
| BookingPage.FindIndex | src/pages/BookingPage.tsx:26 | `findIndex` returns the first position holding the step, or -1 exactly when no position holds it. |
| BookingPage.StepIndexIsPosition | src/pages/BookingPage.tsx:14-20 | The list orders the steps date, time, form, payment, confirmation. |
| BookingPage.StepIndexValid | src/pages/BookingPage.tsx:26 | Every step's index is a valid position, and that position names the step. |
| BookingPage.StepAtIndex | src/pages/BookingPage.tsx:14-20 | No step is listed twice. |
| BookingPage.MovesStayInRange | src/pages/BookingPage.tsx:28-40 | Next adds one to the index and stops at 4. Back subtracts one and stops at 0. |
| BookingPage.BackUndoesNext | src/pages/BookingPage.tsx:28-40 | Next then back returns to the step, unless it was the last. |
| BookingPage.NextUndoesBack | src/pages/BookingPage.tsx:28-40 | Back then next returns to the step, unless it was the first. |
| BookingPage.ForwardFrom | src/pages/BookingPage.tsx:28-33 | `n` next moves advance the position by `n`, stopping at the last step. |
| BookingPage.ForwardFromStart | src/pages/BookingPage.tsx:28-33 | From the start, `n` next moves reach index `min(n, 4)`. |
| BookingPage.Wizard.constructor | src/pages/BookingPage.tsx:23 | The wizard starts at the date step. |
| BookingPage.Wizard.GoToNextStep | src/pages/BookingPage.tsx:28-33 | The step becomes the following one. At confirmation nothing changes. |
| BookingPage.Wizard.GoToPrevStep | src/pages/BookingPage.tsx:35-40 | The step becomes the preceding one. At date nothing changes. |
| BookingPage.Wizard.HandleReset | src/pages/BookingPage.tsx:42-45 | From any step, the draft is emptied and the wizard returns to date. |
| BookingForm.InitialForm | src/components/booking/BookingForm.tsx:24-30 | The form starts from the draft's values, with empty text where the draft has none. |
| BookingForm.PhoneMatchesPattern | src/components/booking/BookingForm.tsx:58 | The one-pass check accepts exactly the strings of `^\+?[\d\s-]{10,}$`: an optional `+`, then ten or more digits, white space or `-`. |
| BookingForm.ErrorsFromKeys | src/components/booking/BookingForm.tsx:49-68 | Each error key is present exactly when its test failed and carries the right message. No other key appears. |
| BookingForm.CollectErrors | src/components/booking/BookingForm.tsx:50-68 | The record built field by field equals the specified errors of the tests. |
| BookingForm.NoKeysIffEmpty | src/components/booking/BookingForm.tsx:71 | A record has no keys exactly when it is empty. |
| BookingForm.NameErrorIff | src/components/booking/BookingForm.tsx:52-54 | A name error is recorded exactly when the name is all white space. |
| BookingForm.PhoneErrorIff | src/components/booking/BookingForm.tsx:56-60 | An empty trimmed phone gives "required". Otherwise a phone outside the pattern gives "invalid". There is no error otherwise. |
| BookingForm.ChoiceErrorsIff | src/components/booking/BookingForm.tsx:62-68 | A gender or service error is recorded exactly when nothing is chosen. |
| BookingForm.ValidIff | src/components/booking/BookingForm.tsx:49-72 | The errors are empty exactly when all four fields are acceptable. |
| BookingForm.ServicesFor | src/components/booking/BookingForm.tsx:34-36 | `men` gives the men's list, `women` the women's list, and no choice gives none. |
| BookingForm.OfferedServicesMatchGender | src/components/booking/BookingForm.tsx:34-36 | Every service offered from the seed catalogue is for the chosen gender. |
| BookingForm.SubmitKeepsBookingContext | src/components/booking/BookingForm.tsx:76-82 | Submit writes the five form fields into the draft and keeps every other draft field. |
| BookingForm.Form.constructor | src/components/booking/BookingForm.tsx:24-32 | The form starts from `InitialForm` of the draft, with no errors. |
| BookingForm.Form.Services | src/components/booking/BookingForm.tsx:34-36 | The service list is `ServicesFor` of the chosen gender over the store's catalogues. |
| BookingForm.Form.HandleInputChange | src/components/booking/BookingForm.tsx:38-43 | Editing sets the field. A non-empty error for that field is blanked, and every other error entry stays. |
| BookingForm.Form.HandleGenderChange | src/components/booking/BookingForm.tsx:45-47 | Choosing a gender resets the service to empty and keeps the other fields. |
| BookingForm.Form.Validate | src/components/booking/BookingForm.tsx:49-72 | The errors become those of the form, and the result is true exactly when there are none. |
| BookingForm.Form.HandleSubmit | src/components/booking/BookingForm.tsx:74-85 | The wizard advances exactly when validation passes, and then the five fields are merged into the draft. Otherwise the draft is unchanged. |
| AppointmentRequests.FilteredBookings | src/components/admin/AppointmentRequests.tsx:49-51 | Filtering never lengthens the list. |
| AppointmentRequests.AllKeepsEverything | src/components/admin/AppointmentRequests.tsx:49-51 | The `all` tab keeps every booking, in order. |
| AppointmentRequests.OnlyKeepsStatus | src/components/admin/AppointmentRequests.tsx:49-51 | A status tab keeps exactly the bookings with that status. |
| AppointmentRequests.FilterAppend | src/components/admin/AppointmentRequests.tsx:49-51 | Filtering keeps the original order: it distributes over concatenation. |
| AppointmentRequests.StatusTabsPartition | src/components/admin/AppointmentRequests.tsx:49-72 | Of the four tabs, `all` lists every booking, and the lengths of the `pending`, `approved` and `rejected` tabs add up to the whole list. |
| AppointmentRequests.ListActions | src/components/admin/AppointmentRequests.tsx:169-190 | A list card shows action buttons exactly when its booking is pending. |
| AppointmentRequests.DialogActions | src/components/admin/AppointmentRequests.tsx:280-299 | The detail dialog shows action buttons exactly when its booking is pending. |
| AppointmentRequests.ActionsAgree | src/components/admin/AppointmentRequests.tsx:169-190 | The list and the dialog offer the same actions, and each offered action moves a pending booking out of `pending`. |
| AppointmentRequests.StoreAcceptsAnyTransition | src/components/admin/AppointmentRequests.tsx:53-56 | A decided booking gets no button, yet the store sets whatever status it is handed. |
| AppointmentRequests.ShownServiceName | src/components/admin/AppointmentRequests.tsx:145-146 | A card shows no name exactly when no catalogue service has the booking's service id. Otherwise it shows that service's name. |
| AppointmentRequests.Panel.constructor | src/components/admin/AppointmentRequests.tsx:46-47 | The screen starts on the `all` tab with no booking selected. |
| AppointmentRequests.Panel.SetFilter | src/components/admin/AppointmentRequests.tsx:69-72 | A tab click sets the filter and keeps the selection. |
| AppointmentRequests.Panel.ViewDetails | src/components/admin/AppointmentRequests.tsx:164 | View Details selects the booking. |
| AppointmentRequests.Panel.CloseDialog | src/components/admin/AppointmentRequests.tsx:200 | Closing the dialog clears the selection. |
| AppointmentRequests.Panel.HandleStatusChange | src/components/admin/AppointmentRequests.tsx:53-56 | The store's bookings become `SetStatus` of the old ones and the selection is cleared. Ranges and draft are unchanged. |
| AppointmentRequests.Panel.PressListAction | src/components/admin/AppointmentRequests.tsx:169-190 | On a pending card the action sets its status. On any other card nothing happens. |
| AppointmentRequests.Panel.PressDialogAction | src/components/admin/AppointmentRequests.tsx:280-299 | In a dialog on a pending booking the action sets its status. Otherwise nothing happens. |
| PaymentUpload.InitialPreview | src/components/booking/PaymentUpload.tsx:13 | The preview starts as the draft's slip when that is present and non-empty, and as nothing otherwise. |
| PaymentUpload.SubmittedBookingMatchesDraft | src/components/booking/PaymentUpload.tsx:65-74 | The booking created on submit carries every draft field; missing notes or slip stay missing. It is pending. |
| PaymentUpload.SlipPatchTouchesOnlySlip | src/components/booking/PaymentUpload.tsx:20-24 | A successful read changes only the draft's slip. |
| PaymentUpload.RemovePatchTouchesOnlySlip | src/components/booking/PaymentUpload.tsx:55-61 | Removal sets the draft's slip to undefined and changes nothing else. |
| PaymentUpload.UploadThenRemove | src/components/booking/PaymentUpload.tsx:55-61 | Uploading then removing a slip equals removing it. |
| PaymentUpload.Uploader.constructor | src/components/booking/PaymentUpload.tsx:13 | The preview starts from `InitialPreview` of the draft. |
| PaymentUpload.Uploader.HandleFileChange | src/components/booking/PaymentUpload.tsx:17-27 | A JPEG or PNG is previewed and merged into the draft as its slip. Any other file changes nothing. |
| PaymentUpload.Uploader.HandleFilesReceived | src/components/booking/PaymentUpload.tsx:29-34 | The file input (and likewise the drop area) hands over the first file received, and nothing when it received none. |
| PaymentUpload.Uploader.HandleRemoveImage | src/components/booking/PaymentUpload.tsx:55-61 | The preview is cleared and the draft's slip set to undefined. The rest of the draft is unchanged. |
| PaymentUpload.Uploader.HandleSubmit | src/components/booking/PaymentUpload.tsx:63-76 | Exactly one booking built from the draft is appended and the wizard advances. The draft and ranges are unchanged, with or without a slip. |
| Scenario.FreshBookingId | src/store/salonStore.ts:165-201 | A clock reading above 3 gives a new booking an id that no seed booking has. |
| Scenario.ApproveNewest | src/store/salonStore.ts:272-278 | Approving the newest booking, whose id is new, changes only that booking. |
| Scenario.OpenWeek | src/components/admin/AvailabilityManager.tsx:53-70 | Submitting the dialog for 2025-02-01 to 2025-02-07 at default hours appends one range with the hours 9 to 19. |
| Scenario.SubmitCustomerBooking | src/components/booking/PaymentUpload.tsx:63-76 | Submitting a filled-in draft without notes or slip appends one pending booking with its fields. |
| Scenario.BookAndApprove | src/store/salonStore.ts:261-278 | After opening a week, booking `men-1` on 2025-02-03 at 10:00 and approving it, there are four ranges and four bookings. The seed bookings are unchanged, the new booking is approved with the draft's fields, and the seed booking for the same date and time still holds the slot. |

## Left out

- `src/components/booking/DateSelection.tsx` is not part of this model. It is a calendar widget driven by date-fns and the wall clock, and its availability rule is stubbed to true. In the model, the draft's date is written by a plain draft patch.
- The pure presentation files are not part of this model (landing sections, navbar, footer, index and admin pages, confirmation screen), nor is any rendering, animation, framer-motion or React re-rendering. Zustand's subscription machinery is replaced by one shared `Store` object.
- The seed's `Math.random() > 0.3` availability is not modelled. Each seed range takes an arbitrary draw function as a parameter.
- `Date.now()` and `new Date().toISOString()` are not modelled. They are parameters (`now`, `rangeClock`, `bookingClock`, `createdAt`), and nothing claims the readings differ.
- The asynchronous `FileReader` is not modelled: the data URL it would produce is given with the file. The `isDragging` highlight and the reset of the file input's value are presentation only.
- date-fns formatting and parsing are not modelled; dates are opaque strings. The progress bar's width is a floating-point display value and is left out.
- The JavaScript regular-expression engine is not modelled. The phone rule is a character predicate, proved equal to the pattern's language (`BookingForm.PhoneMatchesPattern`).
- JavaScript numbers are not modelled as doubles. `parseInt` yields an unbounded integer, so hours beyond 2^53 lose no precision, and `toString` never switches to exponent notation.
- `RangePatch` cannot name a field with the value `undefined`, which `{ ...r, ...range }` would copy. Patches are modelled with optional fields only.
- `BookingForm.Form.HandleInputChange` accepts only the four text fields. The source accepts any field name string, and the gender field goes through `HandleGenderChange`. Error records are keyed by a `Field` datatype rather than by strings.
- `BookingForm.Form.HandleInputChange`'s guard reads the current errors. The source reads the errors of the last render, and React batches state updates; neither is modelled.
- `TimeSelection`'s own `formatTimeDisplay` is the same code as `AvailabilityManager`'s. It is modelled once, as `AvailabilityManager.FormatTimeDisplay`.
- `PaymentUpload.Uploader.HandleSubmit` requires the six mandatory draft fields, standing for the source's TypeScript non-null assertions. What the source would store when one of them is missing (an `undefined` field) is not modelled.
- `Scenario.BookAndApprove` requires a booking clock reading above 3, because readings 1 to 3 reproduce the ids of the seed bookings.
- `AppointmentRequests`' detail dialog content (formatted dates, prices, the payment-slip image) is presentation only and is not modelled.
