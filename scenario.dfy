/**
 * One run through the system as its screens drive the store: the admin opens a week of hours,
 * a customer's draft is submitted as a booking, and the admin approves it.
 */
module Scenario {
  import opened Options
  import opened JsText
  import opened SalonStore
  import opened AvailabilityManager
  import opened PaymentUpload
  import opened AppointmentRequests

  /** A clock reading past 3 never gives a new booking the id of a seed booking. */
  lemma FreshBookingId(now: nat)
    requires now > 3
    ensures forall k :: 0 <= k < |SeedBookings| ==> SeedBookings[k].id != "booking-" + NatToString(now)
  {
    BookingIdsFollowClock(now, 1);
    BookingIdsFollowClock(now, 2);
    BookingIdsFollowClock(now, 3);
    assert NatToString(1) == "1" && NatToString(2) == "2" && NatToString(3) == "3";
  }

  /** Approving the newest booking, whose id no earlier booking carries, changes only that booking. */
  lemma ApproveNewest(earlier: seq<Booking>, b: Booking)
    requires forall k :: 0 <= k < |earlier| ==> earlier[k].id != b.id
    ensures SetStatus(earlier + [b], b.id, Approved) == earlier + [b.(status := Approved)]
  {
    SetStatusAt(earlier + [b], b.id, Approved);
  }

  /** The draft a customer fills in before paying: the six mandatory fields, no notes, no slip. */
  function CustomerPatch(fullName: string, phone: string): DraftPatch {
    NoChange.(fullName := Put(fullName), phone := Put(phone), serviceId := Put("men-1"),
      gender := Put(Men), date := Put("2025-02-03"), timeSlot := Put("10:00"))
  }

  /** The admin opens the first week of February at the form's default hours. */
  method OpenWeek(store: Store, rangeClock: nat)
    modifies store
    ensures store.availabilityRanges == old(store.availabilityRanges) + [AvailabilityRange(
      "avail-" + NatToString(rangeClock), Weekly, "2025-02-01", "2025-02-07", HourSlots(9, 19, Always))]
    ensures store.bookings == old(store.bookings) && store.currentBooking == old(store.currentBooking)
  {
    var dialog := new Dialog(store);
    dialog.Open();
    var form := FormData(Weekly, "2025-02-01", "2025-02-07", "09:00", "19:00");
    dialog.Edit(form);
    dialog.HandleSubmit(rangeClock);
    DefaultHoursMatchSeed(form);
  }

  /**
   * A customer's draft for `men-1` on 2025-02-03 at 10:00, started from an empty draft, is
   * submitted from the payment step without notes or a slip.
   */
  method SubmitCustomerBooking(store: Store, bookingClock: nat, createdAt: string, fullName: string, phone: string)
    requires store.currentBooking == EmptyDraft
    modifies store
    ensures store.bookings == old(store.bookings) + [Booking("booking-" + NatToString(bookingClock),
      fullName, phone, "men-1", Men, "2025-02-03", "10:00", None, None, Pending, createdAt)]
    ensures store.availabilityRanges == old(store.availabilityRanges)
  {
    store.SetCurrentBooking(CustomerPatch(fullName, phone));
    var uploader := new Uploader(store);
    var advance := uploader.HandleSubmit(bookingClock, createdAt);
  }

  /**
   * The admin adds the range 2025-02-01 to 2025-02-07 at the default hours; a customer's draft
   * for `men-1` on 2025-02-03 at 10:00, without a payment slip, is submitted; the admin approves
   * the new booking. The range gets the eleven hours 9 to 19, the booking ends up approved with the
   * draft's fields, and the seed bookings are untouched. The seed already holds a pending booking
   * for that date and time, and the store takes the second one all the same.
   */
  method BookAndApprove(draw1: int -> bool, draw2: int -> bool, draw3: int -> bool,
                        rangeClock: nat, bookingClock: nat, createdAt: string,
                        fullName: string, phone: string)
    returns (ranges: seq<AvailabilityRange>, bookings: seq<Booking>)
    requires bookingClock > 3
    ensures |ranges| == 4 && ranges[..3] == SeedRanges(draw1, draw2, draw3)
    ensures ranges[3] == AvailabilityRange("avail-" + NatToString(rangeClock), Weekly,
      "2025-02-01", "2025-02-07", HourSlots(9, 19, Always))
    ensures |bookings| == 4 && bookings[..3] == SeedBookings
    ensures bookings[3] == Booking("booking-" + NatToString(bookingClock), fullName, phone, "men-1",
      Men, "2025-02-03", "10:00", None, None, Approved, createdAt)
    ensures Holds(bookings[0], "2025-02-03", "10:00") && Holds(bookings[3], "2025-02-03", "10:00")
  {
    var store := new Store(draw1, draw2, draw3);
    OpenWeek(store, rangeClock);
    ranges := store.availabilityRanges;
    SubmitCustomerBooking(store, bookingClock, createdAt, fullName, phone);
    var id := "booking-" + NatToString(bookingClock);
    var panel := new Panel(store);
    panel.HandleStatusChange(id, Approved);
    FreshBookingId(bookingClock);
    ApproveNewest(SeedBookings, Booking(id, fullName, phone, "men-1", Men, "2025-02-03", "10:00", None, None, Pending, createdAt));
    bookings := store.bookings;
  }
}
