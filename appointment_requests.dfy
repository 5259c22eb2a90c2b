/**
 * The admin's list of appointment requests: a status filter over the bookings, a detail
 * dialog, and approve/reject actions that are offered only while a booking is pending.
 */
module AppointmentRequests {
  import opened Options
  import opened SalonStore

  datatype StatusFilter = All | Only(status: BookingStatus)

  /** The filter tabs, in the order they are shown. */
  const FilterTabs: seq<StatusFilter> := [All, Only(Pending), Only(Approved), Only(Rejected)]

  predicate Passes(filter: StatusFilter, b: Booking) {
    filter.All? || b.status == filter.status
  }

  /** `bookings.filter(b => filter === 'all' ? true : b.status === filter)`. */
  function FilteredBookings(bookings: seq<Booking>, filter: StatusFilter): (r: seq<Booking>)
    ensures |r| <= |bookings|
  {
    if bookings == [] then []
    else
      var rest := FilteredBookings(bookings[1..], filter);
      if Passes(filter, bookings[0]) then [bookings[0]] + rest else rest
  }

  /** The `all` tab keeps every booking, in order. */
  lemma {:induction false} AllKeepsEverything(bookings: seq<Booking>)
    ensures FilteredBookings(bookings, All) == bookings
  {
    if bookings != [] {
      AllKeepsEverything(bookings[1..]);
      assert bookings == [bookings[0]] + bookings[1..];
    }
  }

  /** A status tab keeps exactly the bookings with that status. */
  lemma {:induction false} OnlyKeepsStatus(bookings: seq<Booking>, status: BookingStatus)
    ensures forall b :: b in FilteredBookings(bookings, Only(status)) <==> b in bookings && b.status == status
  {
    if bookings != [] {
      OnlyKeepsStatus(bookings[1..], status);
      assert forall b :: b in bookings <==> b == bookings[0] || b in bookings[1..];
    }
  }

  /** Filtering keeps the original order: it distributes over concatenation. */
  lemma {:induction false} FilterAppend(a: seq<Booking>, b: seq<Booking>, filter: StatusFilter)
    ensures FilteredBookings(a + b, filter) == FilteredBookings(a, filter) + FilteredBookings(b, filter)
  {
    if a == [] {
      assert a + b == b;
    } else {
      assert (a + b)[0] == a[0] && (a + b)[1..] == a[1..] + b;
      FilterAppend(a[1..], b, filter);
    }
  }

  /**
   * The tabs cover the bookings: the first, `all`, lists every booking, and the three status
   * tabs after it split them, so their lengths add up to the whole list.
   */
  lemma {:induction false} StatusTabsPartition(bookings: seq<Booking>)
    ensures FilteredBookings(bookings, FilterTabs[0]) == bookings
    ensures |FilteredBookings(bookings, FilterTabs[1])| + |FilteredBookings(bookings, FilterTabs[2])|
          + |FilteredBookings(bookings, FilterTabs[3])| == |bookings|
  {
    AllKeepsEverything(bookings);
    if bookings != [] {
      StatusTabsPartition(bookings[1..]);
    }
  }

  // ---------------------------------------------------------------------------------------
  // Actions

  datatype Action = Approve | Reject

  /** The status an action sets. */
  function Outcome(action: Action): BookingStatus {
    match action
    case Approve => Approved
    case Reject => Rejected
  }

  /** The action buttons of a list card: Approve then Reject, only for a pending booking. */
  function ListActions(b: Booking): (r: seq<Action>)
    ensures r != [] <==> b.status == Pending
  {
    if b.status == Pending then [Approve, Reject] else []
  }

  /** The action buttons of the detail dialog: Reject then Approve, only for a pending booking. */
  function DialogActions(b: Booking): (r: seq<Action>)
    ensures r != [] <==> b.status == Pending
  {
    if b.status == Pending then [Reject, Approve] else []
  }

  /** Both places offer the same two choices, in opposite order, and each choice decides the booking. */
  lemma ActionsAgree(b: Booking, a: Action)
    ensures a in ListActions(b) <==> a in DialogActions(b)
    ensures a in ListActions(b) ==> b.status == Pending && Outcome(a) != Pending
  {
  }

  /**
   * The screen only ever moves a booking out of `pending`, but the store it calls accepts any
   * change: a booking already decided gets no button here, yet handed to `updateBookingStatus`
   * it takes whatever status it is given.
   */
  lemma StoreAcceptsAnyTransition(bookings: seq<Booking>, k: nat, status: BookingStatus)
    requires k < |bookings| && bookings[k].status != Pending
    ensures ListActions(bookings[k]) == [] && DialogActions(bookings[k]) == []
    ensures |SetStatus(bookings, bookings[k].id, status)| == |bookings|
    ensures SetStatus(bookings, bookings[k].id, status)[k].status == status
  {
    SetStatusAt(bookings, bookings[k].id, status);
  }

  /**
   * The service name a card shows: the catalogue service's name, or nothing when no service
   * has the booking's id (the optional lookup is rendered as empty, not an error).
   */
  function ShownServiceName(serviceId: string): (r: Option<string>)
    ensures r.None? <==> forall s :: s in Catalogue() ==> s.id != serviceId
    ensures r.Some? ==> exists s :: s in Catalogue() && s.id == serviceId && s.name == r.value
  {
    match FindService(Catalogue(), serviceId)
    case None => None
    case Some(s) => Some(s.name)
  }

  /** The screen's own state over the shared store. */
  class Panel {
    const store: Store
    var selectedBooking: Option<Booking>
    var filter: StatusFilter

    constructor (store: Store)
      ensures this.store == store && selectedBooking.None? && filter == All
    {
      this.store := store;
      selectedBooking := None;
      filter := All;
    }

    /** The cards listed under the current tab. */
    function Listed(): seq<Booking>
      reads this, store
    {
      FilteredBookings(store.bookings, filter)
    }

    method SetFilter(f: StatusFilter)
      modifies this
      ensures filter == f && selectedBooking == old(selectedBooking)
    {
      filter := f;
    }

    /** View Details opens the dialog on a copy of the booking. */
    method ViewDetails(b: Booking)
      modifies this
      ensures selectedBooking == Some(b) && filter == old(filter)
    {
      selectedBooking := Some(b);
    }

    method CloseDialog()
      modifies this
      ensures selectedBooking.None? && filter == old(filter)
    {
      selectedBooking := None;
    }

    /** Sets the status in the store and closes the dialog. */
    method HandleStatusChange(id: string, status: BookingStatus)
      modifies this, store
      ensures store.bookings == SetStatus(old(store.bookings), id, status)
      ensures selectedBooking.None? && filter == old(filter)
      ensures store.availabilityRanges == old(store.availabilityRanges)
      ensures store.currentBooking == old(store.currentBooking)
    {
      store.UpdateBookingStatus(id, status);
      selectedBooking := None;
    }

    /**
     * Pressing an action button of a listed card. A card shows the buttons only while its
     * booking is pending; for any other booking there is no button and nothing happens.
     */
    method PressListAction(b: Booking, a: Action)
      modifies this, store
      ensures b.status == Pending ==>
        store.bookings == SetStatus(old(store.bookings), b.id, Outcome(a)) && selectedBooking.None?
      ensures b.status != Pending ==>
        store.bookings == old(store.bookings) && selectedBooking == old(selectedBooking)
      ensures store.availabilityRanges == old(store.availabilityRanges)
      ensures store.currentBooking == old(store.currentBooking) && filter == old(filter)
    {
      if a in ListActions(b) {
        HandleStatusChange(b.id, Outcome(a));
      }
    }

    /** Pressing an action button of the detail dialog, offered only for a pending booking. */
    method PressDialogAction(a: Action)
      modifies this, store
      ensures old(selectedBooking).Some? && old(selectedBooking).value.status == Pending ==>
        store.bookings == SetStatus(old(store.bookings), old(selectedBooking).value.id, Outcome(a)) &&
        selectedBooking.None?
      ensures !(old(selectedBooking).Some? && old(selectedBooking).value.status == Pending) ==>
        store.bookings == old(store.bookings) && selectedBooking == old(selectedBooking)
      ensures store.availabilityRanges == old(store.availabilityRanges)
      ensures store.currentBooking == old(store.currentBooking) && filter == old(filter)
    {
      if selectedBooking.Some? && a in DialogActions(selectedBooking.value) {
        HandleStatusChange(selectedBooking.value.id, Outcome(a));
      }
    }
  }
}
