/**
 * The time step of the booking wizard: which range's slots are offered, which of them are
 * already taken by bookings on the chosen date, and the selection the customer makes.
 */
module TimeSelection {
  import opened Options
  import opened SalonStore

  /**
   * The range whose slots are offered. The date-containment test is switched off in the
   * source, so the search accepts the first range there is.
   */
  function SelectedRange(ranges: seq<AvailabilityRange>): (r: Option<AvailabilityRange>)
    ensures r.Some? <==> ranges != []
    ensures r.Some? ==> r.value == ranges[0]
  {
    if ranges == [] then None else Some(ranges[0])
  }

  /**
   * The time of every booking on the draft's date that is not rejected, in booking order.
   * A draft without a date matches no booking (a string never equals `undefined`).
   */
  function BookedSlots(bookings: seq<Booking>, date: Option<string>): (r: seq<string>)
    ensures |r| <= |bookings|
    ensures date.None? ==> r == []
  {
    if bookings == [] then []
    else
      var rest := BookedSlots(bookings[1..], date);
      if date.Some? && bookings[0].date == date.value && bookings[0].status != Rejected
      then [bookings[0].timeSlot] + rest
      else rest
  }

  /** A time is booked on a date exactly when some pending or approved booking on that date holds it. */
  lemma {:induction false} BookedSlotsHeld(bookings: seq<Booking>, date: string, time: string)
    ensures time in BookedSlots(bookings, Some(date)) <==>
      exists k :: 0 <= k < |bookings| && Holds(bookings[k], date, time)
  {
    if bookings != [] {
      BookedSlotsHeld(bookings[1..], date, time);
      if exists k :: 0 <= k < |bookings[1..]| && Holds(bookings[1..][k], date, time) {
        var k :| 0 <= k < |bookings[1..]| && Holds(bookings[1..][k], date, time);
        assert bookings[k + 1] == bookings[1..][k];
      }
      if exists k :: 0 <= k < |bookings| && Holds(bookings[k], date, time) {
        var k :| 0 <= k < |bookings| && Holds(bookings[k], date, time);
        if k > 0 {
          assert bookings[1..][k - 1] == bookings[k];
        }
      }
    }
  }

  /** The booked times of two booking lists, one after the other, keep booking order. */
  lemma {:induction false} BookedSlotsAppend(a: seq<Booking>, b: seq<Booking>, date: Option<string>)
    ensures BookedSlots(a + b, date) == BookedSlots(a, date) + BookedSlots(b, date)
  {
    if a == [] {
      assert a + b == b;
    } else {
      assert (a + b)[1..] == a[1..] + b;
      BookedSlotsAppend(a[1..], b, date);
    }
  }

  /** A rejected booking never blocks a slot: adding one changes no booked time. */
  lemma RejectedNeverBlocks(bookings: seq<Booking>, b: Booking, date: Option<string>)
    requires b.status == Rejected
    ensures BookedSlots(bookings + [b], date) == BookedSlots(bookings, date)
  {
    BookedSlotsAppend(bookings, [b], date);
    assert BookedSlots([b], date) == [];
  }

  /** A pending or approved booking on the date does block its time. */
  lemma LiveBookingBlocks(bookings: seq<Booking>, b: Booking, date: string)
    requires b.date == date && b.status != Rejected
    ensures BookedSlots(bookings + [b], Some(date)) == BookedSlots(bookings, Some(date)) + [b.timeSlot]
  {
    BookedSlotsAppend(bookings, [b], Some(date));
    assert BookedSlots([b], Some(date)) == [b.timeSlot];
  }

  /** A slot is unavailable when the admin marked it so or when its time is booked. */
  predicate IsUnavailable(slot: TimeSlot, booked: seq<string>) {
    !slot.isAvailable || slot.time in booked
  }

  /**
   * The availability rule in terms of the bookings themselves: a slot can be picked on a date
   * exactly when it is marked available and no pending or approved booking on that date holds it.
   */
  lemma AvailableIffFree(bookings: seq<Booking>, date: string, slot: TimeSlot)
    ensures !IsUnavailable(slot, BookedSlots(bookings, Some(date))) <==>
      slot.isAvailable && forall k :: 0 <= k < |bookings| ==> !Holds(bookings[k], date, slot.time)
  {
    BookedSlotsHeld(bookings, date, slot.time);
  }

  /** The selection a draft starts from: its time slot, unless missing or empty (`timeSlot || null`). */
  function InitialSelection(draft: Draft): (r: Option<string>)
    ensures r.Some? <==> draft.timeSlot.Some? && draft.timeSlot.value != ""
    ensures r.Some? ==> r == draft.timeSlot
  {
    if draft.timeSlot.Some? && draft.timeSlot.value != "" then draft.timeSlot else None
  }

  /** The time step's own state over the shared store. */
  class Picker {
    const store: Store
    var selectedTime: Option<string>

    constructor (store: Store)
      ensures this.store == store
      ensures selectedTime == InitialSelection(store.currentBooking)
    {
      this.store := store;
      selectedTime := InitialSelection(store.currentBooking);
    }

    /** The slots the screen offers: those of the selected range, none when there is no range. */
    function OfferedSlots(): (r: seq<TimeSlot>)
      reads this, store
      ensures store.availabilityRanges == [] ==> r == []
      ensures store.availabilityRanges != [] ==> r == store.availabilityRanges[0].timeSlots
    {
      match SelectedRange(store.availabilityRanges)
      case None => []
      case Some(range) => range.timeSlots
    }

    /** The times taken on the draft's date. */
    function Booked(): seq<string>
      reads this, store
    {
      BookedSlots(store.bookings, store.currentBooking.date)
    }

    /** Selecting a time records it here and merges it, alone, into the draft. */
    method HandleTimeSelect(time: string)
      modifies this, store
      ensures selectedTime == Some(time)
      ensures store.currentBooking == old(store.currentBooking).(timeSlot := Some(time))
      ensures store.availabilityRanges == old(store.availabilityRanges) && store.bookings == old(store.bookings)
    {
      selectedTime := Some(time);
      store.SetCurrentBooking(NoChange.(timeSlot := Put(time)));
      MergeTimeSlotOnly(old(store.currentBooking), time);
    }

    /** A click on a slot button: ignored on an unavailable slot, a selection otherwise. */
    method HandleSlotClick(slot: TimeSlot)
      modifies this, store
      ensures old(IsUnavailable(slot, Booked())) ==>
        selectedTime == old(selectedTime) && store.currentBooking == old(store.currentBooking)
      ensures !old(IsUnavailable(slot, Booked())) ==>
        selectedTime == Some(slot.time) &&
        store.currentBooking == old(store.currentBooking).(timeSlot := Some(slot.time))
      ensures store.availabilityRanges == old(store.availabilityRanges) && store.bookings == old(store.bookings)
    {
      if !IsUnavailable(slot, Booked()) {
        HandleTimeSelect(slot.time);
      }
    }

    /** Continue moves the wizard on only when a (non-empty) time is selected. */
    method HandleContinue() returns (advance: bool)
      ensures advance <==> selectedTime.Some? && selectedTime.value != ""
    {
      advance := selectedTime.Some? && selectedTime.value != "";
    }
  }
}
