/**
 * The admin's availability manager: a dialog whose form describes a date range and an
 * hour range, the generator that turns the hour range into one slot per whole hour, and the
 * 12-hour clock display of a slot time.
 */
module AvailabilityManager {
  import opened Options
  import opened JsText
  import opened SalonStore

  /** Every slot the admin generates starts out available. */
  function Always(hour: int): bool {
    true
  }

  /**
   * The slots `generateTimeSlots(startTime, endTime)` returns: one per whole hour from the
   * start hour to the end hour inclusive. A time whose hour part does not parse is `NaN`, and
   * a loop bounded by `NaN` never runs, so either failure gives no slots at all.
   */
  function TimeSlotsFor(startTime: string, endTime: string): (r: seq<TimeSlot>)
    ensures ParseHour(startTime).None? || ParseHour(endTime).None? ==> r == []
    ensures ParseHour(startTime).Some? && ParseHour(endTime).Some? ==>
      |r| == if ParseHour(startTime).value <= ParseHour(endTime).value
             then ParseHour(endTime).value - ParseHour(startTime).value + 1 else 0
  {
    match (ParseHour(startTime), ParseHour(endTime))
    case (Some(startHour), Some(endHour)) => HourSlots(startHour, endHour, Always)
    case _ => []
  }

  /** The generator itself: a loop over the hours, proved to build `TimeSlotsFor`. */
  method GenerateTimeSlots(startTime: string, endTime: string) returns (slots: seq<TimeSlot>)
    ensures slots == TimeSlotsFor(startTime, endTime)
  {
    slots := [];
    var start := ParseHour(startTime);
    var end := ParseHour(endTime);
    if start.None? || end.None? {
      return;
    }
    var startHour := start.value;
    var endHour := end.value;
    var hour := startHour;
    while hour <= endHour
      invariant startHour <= hour && (hour <= endHour + 1 || hour == startHour)
      invariant slots == HourSlots(startHour, hour - 1, Always)
      decreases endHour - hour
    {
      HourSlotsExtend(startHour, hour, Always);
      slots := slots + [HourSlot(hour, true)];
      hour := hour + 1;
    }
  }

  /** The `n`-th generated slot is the available slot for the `n`-th hour of the range. */
  lemma GeneratedSlotAt(startTime: string, endTime: string, n: nat)
    requires n < |TimeSlotsFor(startTime, endTime)|
    ensures ParseHour(startTime).Some?
    ensures TimeSlotsFor(startTime, endTime)[n] == HourSlot(ParseHour(startTime).value + n, true)
    ensures TimeSlotsFor(startTime, endTime)[n].isAvailable
  {
    match (ParseHour(startTime), ParseHour(endTime))
    case (Some(startHour), Some(endHour)) =>
      HourSlotsAt(startHour, endHour, Always);
    case _ =>
  }

  /** Each further hour appends its slot at the end. */
  lemma HourSlotsExtend(startHour: int, endHour: int, available: int -> bool)
    requires startHour <= endHour
    ensures HourSlots(startHour, endHour, available)
         == HourSlots(startHour, endHour - 1, available) + [HourSlot(endHour, available(endHour))]
  {
  }

  /** A colon-free head that parses to `hour` reads back as that hour once `:00` follows it. */
  lemma HeadReadsBack(head: string, hour: int)
    requires ':' !in head && ParseInt(head) == Some(hour)
    ensures ParseHour(head + ":00") == Some(hour)
  {
    ParseHourOfHead(head, "00", hour);
    assert head + ":" + "00" == head + ":00";
  }

  /** The time a slot shows reads back, through `parseInt(time.split(':')[0])`, as its hour. */
  lemma SlotTimeReadsBack(hour: int, available: bool)
    ensures ParseHour(HourSlot(hour, available).time) == Some(hour)
  {
    HourLabelHasNoColon(hour);
    HourLabelAlone(hour);
    HeadReadsBack(HourLabel(hour), hour);
  }

  /** Each slot's time reads back as the hour of its position. */
  lemma HourSlotsReadBack(startHour: int, endHour: int, available: int -> bool)
    ensures forall i :: 0 <= i < |HourSlots(startHour, endHour, available)| ==>
      ParseHour(HourSlots(startHour, endHour, available)[i].time) == Some(startHour + i)
  {
    var slots := HourSlots(startHour, endHour, available);
    HourSlotsAt(startHour, endHour, available);
    forall i | 0 <= i < |slots|
      ensures ParseHour(slots[i].time) == Some(startHour + i)
    {
      assert slots[i] == HourSlot(startHour + i, available(startHour + i));
      SlotTimeReadsBack(startHour + i, available(startHour + i));
    }
  }

  /** No two slots of a range share a time: their times read back as different hours. */
  lemma HourSlotTimesDistinct(startHour: int, endHour: int, available: int -> bool)
    ensures forall i, j :: 0 <= i < j < |HourSlots(startHour, endHour, available)| ==>
      HourSlots(startHour, endHour, available)[i].time != HourSlots(startHour, endHour, available)[j].time
  {
    HourSlotsReadBack(startHour, endHour, available);
  }

  /** Each slot's id names the hour of its position. */
  lemma HourSlotIds(startHour: int, endHour: int, available: int -> bool)
    ensures forall i :: 0 <= i < |HourSlots(startHour, endHour, available)| ==>
      HourSlots(startHour, endHour, available)[i].id == "slot-" + IntToString(startHour + i)
  {
    HourSlotsAt(startHour, endHour, available);
  }

  /** No two slots of a range share an id. */
  lemma HourSlotIdsDistinct(startHour: int, endHour: int, available: int -> bool)
    ensures forall i, j :: 0 <= i < j < |HourSlots(startHour, endHour, available)| ==>
      HourSlots(startHour, endHour, available)[i].id != HourSlots(startHour, endHour, available)[j].id
  {
    var slots := HourSlots(startHour, endHour, available);
    HourSlotIds(startHour, endHour, available);
    forall i, j | 0 <= i < j < |slots|
      ensures slots[i].id != slots[j].id
    {
      IntToStringInjective(startHour + i, startHour + j);
      PrefixCancels("slot-", IntToString(startHour + i), IntToString(startHour + j));
    }
  }

  /** Only the hours count: changing the minutes of either bound changes nothing. */
  lemma MinutesDoNotMatter(startHours: string, endHours: string, m1: string, m2: string, m3: string, m4: string)
    requires ':' !in startHours && ':' !in endHours
    ensures TimeSlotsFor(startHours + ":" + m1, endHours + ":" + m2)
         == TimeSlotsFor(startHours + ":" + m3, endHours + ":" + m4)
  {
    MinutesIgnored(startHours, m1, m3);
    MinutesIgnored(endHours, m2, m4);
  }

  /** A two-digit numeral followed by `:00` reads back as its value. */
  lemma NumeralTimeReadsBack(digits: string, hour: nat)
    requires |digits| == 2 && IsDecimalDigit(digits[0]) && IsDecimalDigit(digits[1])
    requires DigitsValue(digits, 10) == hour
    ensures ParseHour(digits + ":00") == Some(hour)
  {
    ParseMagnitudeOfNumeral(digits, []);
    assert digits + [] == digits;
    ParseUnsigned(digits, hour);
    HeadReadsBack(digits, hour);
  }

  /**
   * A form left at the default hours, 09:00 to 19:00, gives the eleven hours 9 to 19: the hours
   * of the seed ranges, all available.
   */
  lemma DefaultHoursMatchSeed(form: FormData)
    requires form.startTime == DefaultForm.startTime && form.endTime == DefaultForm.endTime
    ensures TimeSlotsFor(form.startTime, form.endTime) == HourSlots(9, 19, Always)
    ensures |TimeSlotsFor(form.startTime, form.endTime)| == 11
  {
    DefaultStartReads(form.startTime);
    DefaultEndReads(form.endTime);
  }

  lemma DefaultStartReads(time: string)
    requires time == DefaultForm.startTime
    ensures ParseHour(time) == Some(9)
  {
    var digits := time[..2];
    assert digits == "09" && time == digits + ":00";
    assert digits[..1] == "0" && DigitsValue("0", 10) == 0;
    assert DigitsValue(digits, 10) == 9;
    NumeralTimeReadsBack(digits, 9);
  }

  lemma DefaultEndReads(time: string)
    requires time == DefaultForm.endTime
    ensures ParseHour(time) == Some(19)
  {
    var digits := time[..2];
    assert digits == "19" && time == digits + ":00";
    assert digits[..1] == "1" && DigitsValue("1", 10) == 1;
    assert DigitsValue(digits, 10) == 19;
    NumeralTimeReadsBack(digits, 19);
  }

  // ---------------------------------------------------------------------------------------
  // 12-hour display

  /** The clock-face hour: 0 shows as 12, 13 to 23 show as 1 to 11. */
  function DisplayHour(hour: int): (d: int)
    ensures 0 <= hour <= 23 ==> 1 <= d <= 12
    ensures hour > 12 ==> d == hour - 12
    ensures hour <= 12 && hour != 0 ==> d == hour
    ensures hour == 0 ==> d == 12
  {
    if hour > 12 then hour - 12 else if hour == 0 then 12 else hour
  }

  /** The 24-hour hour a clock-face hour and half of the day stand for. */
  function Hour24(display: int, pm: bool): int {
    if pm then (if display == 12 then 12 else display + 12)
    else (if display == 12 then 0 else display)
  }

  /** On a real hour of the day the 12-hour form loses nothing: it converts back. */
  lemma DisplayHourRoundTrip(hour: int)
    requires 0 <= hour <= 23
    ensures Hour24(DisplayHour(hour), hour >= 12) == hour
  {
  }

  /** How a whole hour shows on a 12-hour clock, e.g. `2:00 PM`, `12:00 AM`. */
  function ClockText(hour: int): string {
    IntToString(DisplayHour(hour)) + ":00 " + (if hour >= 12 then "PM" else "AM")
  }

  /** `formatTimeDisplay`: `NaN:00 AM` when the hour does not parse, else the hour's clock text. */
  function FormatTimeDisplay(time: string): (r: string)
    ensures ParseHour(time).None? ==> r == "NaN:00 AM"
    ensures ParseHour(time).Some? ==> r == ClockText(ParseHour(time).value)
  {
    match ParseHour(time)
    case None => "NaN:00 AM"
    case Some(hour) => ClockText(hour)
  }

  /** The hours of a day on the 12-hour clock: midnight and noon show as 12, afternoon hours drop 12. */
  lemma ClockTextTable(hour: int)
    requires 0 <= hour <= 23
    ensures hour == 0 ==> ClockText(hour) == "12:00 AM"
    ensures 1 <= hour <= 11 ==> ClockText(hour) == IntToString(hour) + ":00 AM"
    ensures hour == 12 ==> ClockText(hour) == "12:00 PM"
    ensures 13 <= hour ==> ClockText(hour) == IntToString(hour - 12) + ":00 PM"
  {
    assert IntToString(12) == "12";
  }

  /** Two strings with tails of equal length are equal only if heads and tails are. */
  lemma SplitTail(a: string, b: string, s: string, t: string)
    requires |s| == |t| && a + s == b + t
    ensures a == b && s == t
  {
    assert a == (a + s)[..|a + s| - |s|];
    assert b == (b + t)[..|b + t| - |t|];
    assert s == (a + s)[|a|..];
    assert t == (b + t)[|b|..];
  }

  /** Within one day the clock text names its hour: two hours display alike exactly when they are equal. */
  lemma ClockTextInjective(h1: int, h2: int)
    requires 0 <= h1 <= 23 && 0 <= h2 <= 23
    ensures ClockText(h1) == ClockText(h2) <==> h1 == h2
  {
    if ClockText(h1) == ClockText(h2) {
      var tail1 := ":00 " + (if h1 >= 12 then "PM" else "AM");
      var tail2 := ":00 " + (if h2 >= 12 then "PM" else "AM");
      assert ClockText(h1) == IntToString(DisplayHour(h1)) + tail1;
      assert ClockText(h2) == IntToString(DisplayHour(h2)) + tail2;
      SplitTail(IntToString(DisplayHour(h1)), IntToString(DisplayHour(h2)), tail1, tail2);
      IntToStringInjective(DisplayHour(h1), DisplayHour(h2));
      assert (h1 >= 12) == (h2 >= 12) by {
        assert tail1[4] == tail2[4];
      }
      DisplayHourRoundTrip(h1);
      DisplayHourRoundTrip(h2);
    }
  }

  /** A generated slot displays as its own hour's clock text. */
  lemma SlotDisplay(hour: int, available: bool)
    ensures FormatTimeDisplay(HourSlot(hour, available).time) == ClockText(hour)
  {
    SlotTimeReadsBack(hour, available);
  }

  /** So two slots of one day display alike only when they are for the same hour. */
  lemma SlotDisplaysDistinct(h1: int, h2: int)
    requires 0 <= h1 <= 23 && 0 <= h2 <= 23
    ensures FormatTimeDisplay(HourSlot(h1, true).time) == FormatTimeDisplay(HourSlot(h2, true).time) <==> h1 == h2
  {
    SlotDisplay(h1, true);
    SlotDisplay(h2, true);
    ClockTextInjective(h1, h2);
  }

  // ---------------------------------------------------------------------------------------
  // The dialog

  /** The dialog's form; `kind` is the range type. */
  datatype FormData = FormData(
    kind: AvailabilityType, startDate: string, endDate: string, startTime: string, endTime: string)

  const DefaultForm := FormData(Weekly, "", "", "09:00", "19:00")

  /** The range a submitted form asks for. */
  function RangeOf(form: FormData): RangeInput {
    RangeInput(form.kind, form.startDate, form.endDate, TimeSlotsFor(form.startTime, form.endTime))
  }

  class Dialog {
    const store: Store
    var isDialogOpen: bool
    var formData: FormData

    constructor (store: Store)
      ensures this.store == store && !isDialogOpen && formData == DefaultForm
    {
      this.store := store;
      isDialogOpen := false;
      formData := DefaultForm;
    }

    method Open()
      modifies this
      ensures isDialogOpen && formData == old(formData)
    {
      isDialogOpen := true;
    }

    /** Cancel closes the dialog and keeps what was typed. */
    method Cancel()
      modifies this
      ensures !isDialogOpen && formData == old(formData)
    {
      isDialogOpen := false;
    }

    /** What the admin types into the form. */
    method Edit(form: FormData)
      modifies this
      ensures formData == form && isDialogOpen == old(isDialogOpen)
    {
      formData := form;
    }

    /**
     * Submitting with both dates filled in adds the range (id from the clock reading `now`),
     * closes the dialog and resets the form; with either date empty nothing at all happens.
     */
    method HandleSubmit(now: nat)
      modifies this, store
      ensures old(formData.startDate) != "" && old(formData.endDate) != "" ==>
        store.availabilityRanges == old(store.availabilityRanges) + [RangeWithId(RangeOf(old(formData)), "avail-" + NatToString(now))] &&
        !isDialogOpen && formData == DefaultForm
      ensures old(formData.startDate) == "" || old(formData.endDate) == "" ==>
        store.availabilityRanges == old(store.availabilityRanges) &&
        isDialogOpen == old(isDialogOpen) && formData == old(formData)
      ensures store.bookings == old(store.bookings) && store.currentBooking == old(store.currentBooking)
    {
      if formData.startDate != "" && formData.endDate != "" {
        var slots := GenerateTimeSlots(formData.startTime, formData.endTime);
        store.AddAvailabilityRange(RangeInput(formData.kind, formData.startDate, formData.endDate, slots), now);
        isDialogOpen := false;
        formData := DefaultForm;
      }
    }

    /** The Remove button of a listed range. */
    method Remove(id: string)
      modifies store
      ensures store.availabilityRanges == RangesWithout(old(store.availabilityRanges), id)
      ensures store.bookings == old(store.bookings) && store.currentBooking == old(store.currentBooking)
    {
      store.RemoveAvailabilityRange(id);
    }
  }
}
