/**
 * The salon's client-side store: the service catalogue, the availability ranges with their
 * hourly time slots, the bookings and the booking draft the wizard fills in. Every command
 * replaces one collection with a new one (an append, a filter, a map or a shallow merge);
 * the functions below are those replacements, the `Store` class applies them.
 */
module SalonStore {
  import opened Options
  import opened JsText

  datatype Gender = Men | Women
  datatype BookingStatus = Pending | Approved | Rejected
  datatype AvailabilityType = Daily | Weekly | Monthly

  datatype TimeSlot = TimeSlot(id: string, time: string, isAvailable: bool)

  datatype Service = Service(
    id: string, name: string, description: string, price: nat,
    duration: nat, gender: Gender, image: Option<string>)

  /** An availability range; `kind` is the source's `type` field (a reserved word here). */
  datatype AvailabilityRange = AvailabilityRange(
    id: string, kind: AvailabilityType, startDate: string, endDate: string,
    timeSlots: seq<TimeSlot>)

  /** What a caller hands to `addAvailabilityRange`: a range without its id. */
  datatype RangeInput = RangeInput(
    kind: AvailabilityType, startDate: string, endDate: string, timeSlots: seq<TimeSlot>)

  /** A partial range for `updateAvailabilityRange`: `None` is a field the patch does not name. */
  datatype RangePatch = RangePatch(
    id: Option<string>, kind: Option<AvailabilityType>, startDate: Option<string>,
    endDate: Option<string>, timeSlots: Option<seq<TimeSlot>>)

  datatype Booking = Booking(
    id: string, fullName: string, phone: string, serviceId: string, gender: Gender,
    date: string, timeSlot: string, notes: Option<string>, paymentSlip: Option<string>,
    status: BookingStatus, createdAt: string)

  /** What a caller hands to `addBooking`: a booking without id, status and creation time. */
  datatype BookingInput = BookingInput(
    fullName: string, phone: string, serviceId: string, gender: Gender,
    date: string, timeSlot: string, notes: Option<string>, paymentSlip: Option<string>)

  /** The booking draft: every field of a booking, each one possibly missing. */
  datatype Draft = Draft(
    id: Option<string>, fullName: Option<string>, phone: Option<string>,
    serviceId: Option<string>, gender: Option<Gender>, date: Option<string>,
    timeSlot: Option<string>, notes: Option<string>, paymentSlip: Option<string>,
    status: Option<BookingStatus>, createdAt: Option<string>)

  const EmptyDraft := Draft(None, None, None, None, None, None, None, None, None, None, None)

  /**
   * What a patch does to one draft field under a spread `{ ...draft, ...patch }`: a key the
   * patch lacks keeps the old value, a key with a value overwrites it, and a key whose value is
   * `undefined` leaves the field undefined.
   */
  datatype Change<T> = Keep | Put(value: T) | Unset

  datatype DraftPatch = DraftPatch(
    id: Change<string>, fullName: Change<string>, phone: Change<string>,
    serviceId: Change<string>, gender: Change<Gender>, date: Change<string>,
    timeSlot: Change<string>, notes: Change<string>, paymentSlip: Change<string>,
    status: Change<BookingStatus>, createdAt: Change<string>)

  /** The empty patch `{}`. */
  const NoChange := DraftPatch(Keep, Keep, Keep, Keep, Keep, Keep, Keep, Keep, Keep, Keep, Keep)

  // ---------------------------------------------------------------------------------------
  // Seed catalogue

  const MenServices: seq<Service> := [
    Service("men-1", "Classic Haircut", "Traditional precision cut with styling", 45, 30, Men, None),
    Service("men-2", "Beard Grooming", "Shape, trim, and hot towel treatment", 35, 25, Men, None),
    Service("men-3", "Executive Facial", "Deep cleansing and rejuvenating treatment", 75, 45, Men, None),
    Service("men-4", "Hair Styling", "Premium styling with quality products", 55, 40, Men, None)
  ]

  const WomenServices: seq<Service> := [
    Service("women-1", "Signature Haircut", "Expert cut tailored to your style", 65, 45, Women, None),
    Service("women-2", "Color & Highlights", "Full color service with premium dyes", 150, 120, Women, None),
    Service("women-3", "Luxury Spa Treatment", "Complete relaxation experience", 120, 90, Women, None),
    Service("women-4", "Bridal Makeup", "Flawless bridal look for your special day", 200, 90, Women, None),
    Service("women-5", "Blowout & Styling", "Professional blowout with styling", 55, 45, Women, None)
  ]

  /** The catalogue `getServiceById` searches: men's services, then women's. */
  function Catalogue(): seq<Service> {
    MenServices + WomenServices
  }

  const SeedBookings: seq<Booking> := [
    Booking("booking-1", "John Smith", "+1 234 567 890", "men-1", Men, "2025-02-03", "10:00",
      Some("First time customer"), None, Pending, "2025-01-30T10:00:00Z"),
    Booking("booking-2", "Sarah Johnson", "+1 234 567 891", "women-2", Women, "2025-02-04", "14:00",
      None, None, Approved, "2025-01-30T11:00:00Z"),
    Booking("booking-3", "Emily Davis", "+1 234 567 892", "women-4", Women, "2025-02-05", "11:00",
      Some("Wedding on Feb 10"), None, Pending, "2025-01-30T12:00:00Z")
  ]

  // ---------------------------------------------------------------------------------------
  // Hourly time slots

  /** The slot for one whole hour: id `slot-<hour>`, time `<hour, two digits>:00`. */
  function HourSlot(hour: int, available: bool): TimeSlot {
    TimeSlot("slot-" + IntToString(hour), HourLabel(hour) + ":00", available)
  }

  /** `[f(start), f(start + 1), ..., f(end)]`, empty when `start > end`. */
  function Tabulate<T>(start: int, end: int, f: int -> T): (r: seq<T>)
    ensures |r| == if start <= end then end - start + 1 else 0
    decreases end - start
  {
    if start > end then [] else Tabulate(start, end - 1, f) + [f(end)]
  }

  lemma {:induction false} TabulateAt<T>(start: int, end: int, f: int -> T)
    ensures forall i :: 0 <= i < |Tabulate(start, end, f)| ==> Tabulate(start, end, f)[i] == f(start + i)
    decreases end - start
  {
    if start <= end {
      TabulateAt(start, end - 1, f);
    }
  }

  /** One slot per whole hour from `startHour` to `endHour` inclusive, in increasing order. */
  function HourSlots(startHour: int, endHour: int, available: int -> bool): seq<TimeSlot> {
    Tabulate(startHour, endHour, h => HourSlot(h, available(h)))
  }

  /** There is one slot per hour, and the slot at position `i` is the one for hour `startHour + i`. */
  lemma HourSlotsAt(startHour: int, endHour: int, available: int -> bool)
    ensures |HourSlots(startHour, endHour, available)| == if startHour <= endHour then endHour - startHour + 1 else 0
    ensures forall i :: 0 <= i < |HourSlots(startHour, endHour, available)| ==>
      HourSlots(startHour, endHour, available)[i] == HourSlot(startHour + i, available(startHour + i))
  {
    TabulateAt(startHour, endHour, h => HourSlot(h, available(h)));
  }

  /**
   * The seed's slot generator: one slot per hour from 9 to 19, each available or not as the
   * random draw says (the source draws `Math.random() > 0.3`; here the draw is a parameter).
   */
  method SeedTimeSlots(draw: int -> bool) returns (slots: seq<TimeSlot>)
    ensures slots == HourSlots(9, 19, draw)
    ensures |slots| == 11
  {
    slots := [];
    for hour := 9 to 20
      invariant slots == HourSlots(9, hour - 1, draw)
    {
      slots := slots + [HourSlot(hour, draw(hour))];
    }
  }

  /** The three seed availability ranges, each with a freshly drawn set of hourly slots. */
  function SeedRanges(draw1: int -> bool, draw2: int -> bool, draw3: int -> bool): seq<AvailabilityRange> {
    [
      AvailabilityRange("avail-1", Weekly, "2025-02-01", "2025-02-07", HourSlots(9, 19, draw1)),
      AvailabilityRange("avail-2", Weekly, "2025-02-08", "2025-02-14", HourSlots(9, 19, draw2)),
      AvailabilityRange("avail-3", Monthly, "2025-02-01", "2025-02-28", HourSlots(9, 19, draw3))
    ]
  }

  // ---------------------------------------------------------------------------------------
  // Service lookup

  /** `services.find(s => s.id === id)`: the first service with that id, if any. */
  function FindService(services: seq<Service>, id: string): (r: Option<Service>)
    ensures r.Some? ==> r.value in services && r.value.id == id
    ensures r.None? <==> forall k :: 0 <= k < |services| ==> services[k].id != id
    ensures r.Some? ==> exists k :: 0 <= k < |services| && services[k] == r.value &&
                                   (forall j :: 0 <= j < k ==> services[j].id != id)
  {
    if services == [] then None
    else if services[0].id == id then Some(services[0])
    else
      var r := FindService(services[1..], id);
      assert r.Some? ==> exists k :: 0 <= k < |services| && services[k] == r.value &&
                                      (forall j :: 0 <= j < k ==> services[j].id != id) by {
        if r.Some? {
          var k :| 0 <= k < |services[1..]| && services[1..][k] == r.value &&
                   (forall j :: 0 <= j < k ==> services[1..][j].id != id);
          assert services[k + 1] == r.value;
          assert forall j :: 1 <= j < k + 1 ==> services[j].id == services[1..][j - 1].id;
        }
      }
      r
  }

  predicate DistinctIds(services: seq<Service>) {
    forall i, j :: 0 <= i < j < |services| ==> services[i].id != services[j].id
  }

  /** In a catalogue whose ids are distinct, looking up a service's id finds that service. */
  lemma FindServiceFindsEach(services: seq<Service>, s: Service)
    requires DistinctIds(services)
    requires s in services
    ensures FindService(services, s.id) == Some(s)
  {
    var r := FindService(services, s.id);
    var j :| 0 <= j < |services| && services[j] == s;
    var k :| 0 <= k < |services| && services[k] == r.value &&
             (forall i :: 0 <= i < k ==> services[i].id != s.id);
  }

  /** The seed catalogue gives every service its own id. */
  lemma CatalogueIdsDistinct()
    ensures DistinctIds(Catalogue())
  {
    var c := Catalogue();
    assert |c| == 9;
    forall i, j | 0 <= i < j < 9 ensures c[i].id != c[j].id {
      assert c[i].id[|c[i].id| - 1] != c[j].id[|c[j].id| - 1] || |c[i].id| != |c[j].id|;
    }
  }

  // ---------------------------------------------------------------------------------------
  // Availability ranges

  /** A range built from the caller's fields and a generated id. */
  function RangeWithId(input: RangeInput, id: string): AvailabilityRange {
    AvailabilityRange(id, input.kind, input.startDate, input.endDate, input.timeSlots)
  }

  /** `ranges.filter(r => r.id !== id)`. */
  function RangesWithout(ranges: seq<AvailabilityRange>, id: string): (r: seq<AvailabilityRange>)
    ensures |r| <= |ranges|
    ensures forall x :: x in r <==> x in ranges && x.id != id
  {
    if ranges == [] then []
    else if ranges[0].id == id then RangesWithout(ranges[1..], id)
    else [ranges[0]] + RangesWithout(ranges[1..], id)
  }

  /** How many ranges carry the id. */
  function CountRangeId(ranges: seq<AvailabilityRange>, id: string): (n: nat)
    ensures n <= |ranges|
  {
    if ranges == [] then 0
    else (if ranges[0].id == id then 1 else 0) + CountRangeId(ranges[1..], id)
  }

  /** Removal drops exactly the ranges carrying the id, so one match shortens the list by one. */
  lemma {:induction false} RangesWithoutLength(ranges: seq<AvailabilityRange>, id: string)
    ensures |RangesWithout(ranges, id)| == |ranges| - CountRangeId(ranges, id)
  {
    if ranges != [] {
      RangesWithoutLength(ranges[1..], id);
    }
  }

  /** Removal keeps the survivors in their original order: it distributes over concatenation. */
  lemma {:induction false} RangesWithoutAppend(a: seq<AvailabilityRange>, b: seq<AvailabilityRange>, id: string)
    ensures RangesWithout(a + b, id) == RangesWithout(a, id) + RangesWithout(b, id)
  {
    if a != [] {
      assert (a + b)[1..] == a[1..] + b;
      RangesWithoutAppend(a[1..], b, id);
    } else {
      assert a + b == b;
    }
  }

  /** Removing an id no range carries leaves the list as it was. */
  lemma {:induction false} RangesWithoutUnknown(ranges: seq<AvailabilityRange>, id: string)
    requires forall k :: 0 <= k < |ranges| ==> ranges[k].id != id
    ensures RangesWithout(ranges, id) == ranges
  {
    if ranges != [] {
      RangesWithoutUnknown(ranges[1..], id);
      assert ranges == [ranges[0]] + ranges[1..];
    }
  }

  /** `{ ...range, ...patch }`: the fields the patch names win, the rest stay. */
  function PatchRange(range: AvailabilityRange, patch: RangePatch): (r: AvailabilityRange)
  {
    AvailabilityRange(
      if patch.id.Some? then patch.id.value else range.id,
      if patch.kind.Some? then patch.kind.value else range.kind,
      if patch.startDate.Some? then patch.startDate.value else range.startDate,
      if patch.endDate.Some? then patch.endDate.value else range.endDate,
      if patch.timeSlots.Some? then patch.timeSlots.value else range.timeSlots)
  }

  /** `ranges.map(r => r.id === id ? { ...r, ...patch } : r)`. */
  function PatchRanges(ranges: seq<AvailabilityRange>, id: string, patch: RangePatch): (r: seq<AvailabilityRange>)
  {
    if ranges == [] then []
    else
      var head := if ranges[0].id == id then PatchRange(ranges[0], patch) else ranges[0];
      [head] + PatchRanges(ranges[1..], id, patch)
  }

  /**
   * An update keeps the length and every range with another id, and gives each matching range
   * the patch's fields while it keeps all the others.
   */
  lemma {:induction false} PatchRangesAt(ranges: seq<AvailabilityRange>, id: string, patch: RangePatch)
    ensures |PatchRanges(ranges, id, patch)| == |ranges|
    ensures forall k :: 0 <= k < |ranges| ==>
      PatchRanges(ranges, id, patch)[k] == if ranges[k].id == id then PatchRange(ranges[k], patch) else ranges[k]
  {
    if ranges != [] {
      PatchRangesAt(ranges[1..], id, patch);
    }
  }

  /** Each field of a patched range is the patch's value when it names one, else the old value. */
  lemma PatchRangeFields(range: AvailabilityRange, patch: RangePatch)
    ensures patch.id.None? ==> PatchRange(range, patch).id == range.id
    ensures patch.id.Some? ==> PatchRange(range, patch).id == patch.id.value
    ensures patch.kind.None? ==> PatchRange(range, patch).kind == range.kind
    ensures patch.kind.Some? ==> PatchRange(range, patch).kind == patch.kind.value
    ensures patch.startDate.None? ==> PatchRange(range, patch).startDate == range.startDate
    ensures patch.startDate.Some? ==> PatchRange(range, patch).startDate == patch.startDate.value
    ensures patch.endDate.None? ==> PatchRange(range, patch).endDate == range.endDate
    ensures patch.endDate.Some? ==> PatchRange(range, patch).endDate == patch.endDate.value
    ensures patch.timeSlots.None? ==> PatchRange(range, patch).timeSlots == range.timeSlots
    ensures patch.timeSlots.Some? ==> PatchRange(range, patch).timeSlots == patch.timeSlots.value
    ensures patch == RangePatch(None, None, None, None, None) ==> PatchRange(range, patch) == range
  {
  }

  // ---------------------------------------------------------------------------------------
  // Bookings

  /** The booking `addBooking` builds: the caller's fields, a generated id, `pending`, a timestamp. */
  function NewBooking(input: BookingInput, id: string, createdAt: string): Booking {
    Booking(id, input.fullName, input.phone, input.serviceId, input.gender, input.date,
      input.timeSlot, input.notes, input.paymentSlip, Pending, createdAt)
  }

  /** The caller-supplied part of a booking (the `Omit<Booking, 'id' | 'status' | 'createdAt'>`). */
  function InputOf(b: Booking): BookingInput {
    BookingInput(b.fullName, b.phone, b.serviceId, b.gender, b.date, b.timeSlot, b.notes, b.paymentSlip)
  }

  /** A new booking is pending, carries the generated id and time, and copies the caller's fields verbatim. */
  lemma NewBookingCopiesInput(input: BookingInput, id: string, createdAt: string)
    ensures InputOf(NewBooking(input, id, createdAt)) == input
    ensures NewBooking(input, id, createdAt).status == Pending
    ensures NewBooking(input, id, createdAt).id == id
    ensures NewBooking(input, id, createdAt).createdAt == createdAt
  {
  }

  /** `bookings.map(b => b.id === id ? { ...b, status } : b)`. */
  function SetStatus(bookings: seq<Booking>, id: string, status: BookingStatus): (r: seq<Booking>)
  {
    if bookings == [] then []
    else
      var head := if bookings[0].id == id then bookings[0].(status := status) else bookings[0];
      [head] + SetStatus(bookings[1..], id, status)
  }

  /** A status update keeps the length and every other booking, and changes only `status` of matches. */
  lemma {:induction false} SetStatusAt(bookings: seq<Booking>, id: string, status: BookingStatus)
    ensures |SetStatus(bookings, id, status)| == |bookings|
    ensures forall k :: 0 <= k < |bookings| ==>
      SetStatus(bookings, id, status)[k] == if bookings[k].id == id then bookings[k].(status := status) else bookings[k]
  {
    if bookings != [] {
      SetStatusAt(bookings[1..], id, status);
    }
  }

  /**
   * No transition is refused: whatever statuses a booking went through, the last update wins,
   * so an approved booking can be rejected (and a rejected one approved).
   */
  lemma SetStatusLastWins(bookings: seq<Booking>, id: string, first: BookingStatus, second: BookingStatus)
    ensures SetStatus(SetStatus(bookings, id, first), id, second) == SetStatus(bookings, id, second)
  {
    var once := SetStatus(bookings, id, first);
    SetStatusAt(bookings, id, first);
    SetStatusAt(once, id, second);
    SetStatusAt(bookings, id, second);
  }

  /** A pending or approved booking on that date at that time holds the slot. */
  predicate Holds(b: Booking, date: string, time: string) {
    b.date == date && b.timeSlot == time && b.status != Rejected
  }

  /**
   * `addBooking` checks nothing: a booking for a date and time that another non-rejected
   * booking already holds is appended all the same, leaving two holders of one slot.
   */
  lemma AddBookingAcceptsDoubleBooking(bookings: seq<Booking>, k: nat, input: BookingInput, id: string, createdAt: string)
    requires k < |bookings| && Holds(bookings[k], input.date, input.timeSlot)
    ensures var after := bookings + [NewBooking(input, id, createdAt)];
      Holds(after[k], input.date, input.timeSlot) && Holds(after[|bookings|], input.date, input.timeSlot)
  {
  }

  /** Booking ids come from the clock: two ids are equal exactly when the clock readings are. */
  lemma BookingIdsFollowClock(now1: nat, now2: nat)
    ensures "booking-" + NatToString(now1) == "booking-" + NatToString(now2) <==> now1 == now2
  {
    NatToStringInjective(now1, now2);
    if "booking-" + NatToString(now1) == "booking-" + NatToString(now2) {
      assert NatToString(now1) == ("booking-" + NatToString(now1))[8..];
      assert NatToString(now2) == ("booking-" + NatToString(now2))[8..];
    }
  }

  // ---------------------------------------------------------------------------------------
  // The draft

  function ApplyChange<T>(c: Change<T>, current: Option<T>): Option<T> {
    match c
    case Keep => current
    case Put(v) => Some(v)
    case Unset => None
  }

  /** `{ ...draft, ...patch }`. */
  function Merge(d: Draft, p: DraftPatch): (r: Draft) {
    Draft(
      ApplyChange(p.id, d.id), ApplyChange(p.fullName, d.fullName), ApplyChange(p.phone, d.phone),
      ApplyChange(p.serviceId, d.serviceId), ApplyChange(p.gender, d.gender),
      ApplyChange(p.date, d.date), ApplyChange(p.timeSlot, d.timeSlot),
      ApplyChange(p.notes, d.notes), ApplyChange(p.paymentSlip, d.paymentSlip),
      ApplyChange(p.status, d.status), ApplyChange(p.createdAt, d.createdAt))
  }

  function ThenChange<T>(first: Change<T>, second: Change<T>): Change<T> {
    if second.Keep? then first else second
  }

  /** The patch equivalent to applying `first` and then `second`: where both name a field, `second` wins. */
  function Then(first: DraftPatch, second: DraftPatch): DraftPatch {
    DraftPatch(
      ThenChange(first.id, second.id), ThenChange(first.fullName, second.fullName),
      ThenChange(first.phone, second.phone), ThenChange(first.serviceId, second.serviceId),
      ThenChange(first.gender, second.gender), ThenChange(first.date, second.date),
      ThenChange(first.timeSlot, second.timeSlot), ThenChange(first.notes, second.notes),
      ThenChange(first.paymentSlip, second.paymentSlip), ThenChange(first.status, second.status),
      ThenChange(first.createdAt, second.createdAt))
  }

  /** Two merges in a row are one merge of the combined patch: the last write wins, field by field. */
  lemma MergeLastWriteWins(d: Draft, first: DraftPatch, second: DraftPatch)
    ensures Merge(Merge(d, first), second) == Merge(d, Then(first, second))
  {
  }

  /** Merging the empty patch changes nothing. */
  lemma MergeNothing(d: Draft)
    ensures Merge(d, NoChange) == d
  {
  }

  /** A patch that names only the time slot changes only the time slot. */
  lemma MergeTimeSlotOnly(d: Draft, time: string)
    ensures Merge(d, NoChange.(timeSlot := Put(time))) == d.(timeSlot := Some(time))
  {
  }

  // ---------------------------------------------------------------------------------------
  // The store

  class Store {
    const menServices: seq<Service>
    const womenServices: seq<Service>
    var availabilityRanges: seq<AvailabilityRange>
    var bookings: seq<Booking>
    var currentBooking: Draft

    /**
     * The seeded store. `draw1`, `draw2` and `draw3` stand for the random availability the
     * seed draws for each hour of the three seed ranges.
     */
    constructor (draw1: int -> bool, draw2: int -> bool, draw3: int -> bool)
      ensures menServices == MenServices && womenServices == WomenServices
      ensures availabilityRanges == SeedRanges(draw1, draw2, draw3)
      ensures bookings == SeedBookings
      ensures currentBooking == EmptyDraft
    {
      menServices := MenServices;
      womenServices := WomenServices;
      var first := SeedTimeSlots(draw1);
      var second := SeedTimeSlots(draw2);
      var third := SeedTimeSlots(draw3);
      availabilityRanges := [
        AvailabilityRange("avail-1", Weekly, "2025-02-01", "2025-02-07", first),
        AvailabilityRange("avail-2", Weekly, "2025-02-08", "2025-02-14", second),
        AvailabilityRange("avail-3", Monthly, "2025-02-01", "2025-02-28", third)
      ];
      bookings := SeedBookings;
      currentBooking := EmptyDraft;
    }

    /** `getServiceById`: searches the module's catalogue (men first); reads no store state. */
    function GetServiceById(id: string): (r: Option<Service>)
      ensures r.Some? ==> r.value in MenServices + WomenServices && r.value.id == id
      ensures r.None? <==> forall s :: s in MenServices + WomenServices ==> s.id != id
    {
      FindService(Catalogue(), id)
    }

    method AddAvailabilityRange(range: RangeInput, now: nat)
      modifies this
      ensures availabilityRanges == old(availabilityRanges) + [RangeWithId(range, "avail-" + NatToString(now))]
      ensures bookings == old(bookings) && currentBooking == old(currentBooking)
    {
      availabilityRanges := availabilityRanges + [RangeWithId(range, "avail-" + NatToString(now))];
    }

    method RemoveAvailabilityRange(id: string)
      modifies this
      ensures availabilityRanges == RangesWithout(old(availabilityRanges), id)
      ensures bookings == old(bookings) && currentBooking == old(currentBooking)
    {
      availabilityRanges := RangesWithout(availabilityRanges, id);
    }

    method UpdateAvailabilityRange(id: string, patch: RangePatch)
      modifies this
      ensures availabilityRanges == PatchRanges(old(availabilityRanges), id, patch)
      ensures bookings == old(bookings) && currentBooking == old(currentBooking)
    {
      availabilityRanges := PatchRanges(availabilityRanges, id, patch);
    }

    /** Appends a pending booking; `now` and `createdAt` are the clock readings the source takes. */
    method AddBooking(input: BookingInput, now: nat, createdAt: string)
      modifies this
      ensures bookings == old(bookings) + [NewBooking(input, "booking-" + NatToString(now), createdAt)]
      ensures availabilityRanges == old(availabilityRanges) && currentBooking == old(currentBooking)
    {
      bookings := bookings + [NewBooking(input, "booking-" + NatToString(now), createdAt)];
    }

    method UpdateBookingStatus(id: string, status: BookingStatus)
      modifies this
      ensures bookings == SetStatus(old(bookings), id, status)
      ensures availabilityRanges == old(availabilityRanges) && currentBooking == old(currentBooking)
    {
      bookings := SetStatus(bookings, id, status);
    }

    method SetCurrentBooking(patch: DraftPatch)
      modifies this
      ensures currentBooking == Merge(old(currentBooking), patch)
      ensures availabilityRanges == old(availabilityRanges) && bookings == old(bookings)
    {
      currentBooking := Merge(currentBooking, patch);
    }

    /** Empties the draft whatever it held, so a second reset finds it already empty. */
    method ResetCurrentBooking()
      modifies this
      ensures currentBooking == EmptyDraft
      ensures availabilityRanges == old(availabilityRanges) && bookings == old(bookings)
    {
      currentBooking := EmptyDraft;
    }
  }
}
