/**
 * The payment step of the booking wizard: an optional payment-slip image (JPEG or PNG only)
 * kept in the draft, and the submit that turns the draft into one booking in the store.
 */
module PaymentUpload {
  import opened Options
  import opened JsText
  import opened SalonStore

  /**
   * A picked or dropped file: its MIME type and the data URL a `FileReader` yields for it. The
   * reading itself is asynchronous browser work; here its outcome is given with the file.
   */
  datatype SlipFile = SlipFile(mimeType: string, dataUrl: string)

  /** Only JPEG and PNG images are read. */
  predicate IsAcceptedType(mimeType: string) {
    mimeType == "image/jpeg" || mimeType == "image/png"
  }

  /** The preview a draft starts from: its slip, unless missing or empty (`paymentSlip || null`). */
  function InitialPreview(draft: Draft): (r: Option<string>)
    ensures r.Some? <==> draft.paymentSlip.Some? && draft.paymentSlip.value != ""
    ensures r.Some? ==> r == draft.paymentSlip
  {
    if draft.paymentSlip.Some? && draft.paymentSlip.value != "" then draft.paymentSlip else None
  }

  /** The six fields a booking cannot do without; notes and the slip may be missing. */
  predicate Complete(draft: Draft) {
    draft.fullName.Some? && draft.phone.Some? && draft.serviceId.Some? &&
    draft.gender.Some? && draft.date.Some? && draft.timeSlot.Some?
  }

  /** The argument `handleSubmit` passes to `addBooking`, read off the draft field by field. */
  function SubmittedInput(draft: Draft): BookingInput
    requires Complete(draft)
  {
    BookingInput(draft.fullName.value, draft.phone.value, draft.serviceId.value,
      draft.gender.value, draft.date.value, draft.timeSlot.value, draft.notes, draft.paymentSlip)
  }

  /**
   * The booking a submit creates carries every field of the draft, the slip and notes included
   * exactly as the draft holds them (missing stays missing), and starts pending.
   */
  lemma SubmittedBookingMatchesDraft(draft: Draft, id: string, createdAt: string)
    requires Complete(draft)
    ensures var b := NewBooking(SubmittedInput(draft), id, createdAt);
      Some(b.fullName) == draft.fullName && Some(b.phone) == draft.phone &&
      Some(b.serviceId) == draft.serviceId && Some(b.gender) == draft.gender &&
      Some(b.date) == draft.date && Some(b.timeSlot) == draft.timeSlot &&
      b.notes == draft.notes && b.paymentSlip == draft.paymentSlip &&
      b.status == Pending && b.id == id && b.createdAt == createdAt
  {
    NewBookingCopiesInput(SubmittedInput(draft), id, createdAt);
  }

  /** The patch a successful read merges: the slip and nothing else. */
  function SlipPatch(dataUrl: string): DraftPatch {
    NoChange.(paymentSlip := Put(dataUrl))
  }

  /** The patch the remove button merges: the slip set to `undefined`. */
  const RemovePatch := NoChange.(paymentSlip := Unset)

  /** Reading a slip touches only the draft's slip. */
  lemma SlipPatchTouchesOnlySlip(d: Draft, dataUrl: string)
    ensures Merge(d, SlipPatch(dataUrl)) == d.(paymentSlip := Some(dataUrl))
  {
  }

  /** Removing touches only the draft's slip. */
  lemma RemovePatchTouchesOnlySlip(d: Draft)
    ensures Merge(d, RemovePatch) == d.(paymentSlip := None)
  {
  }

  /**
   * Uploading and then removing a slip is the same as removing it: whatever the upload put in
   * the draft is gone, and the rest of the draft is as it was before the upload.
   */
  lemma UploadThenRemove(d: Draft, dataUrl: string)
    ensures Merge(Merge(d, SlipPatch(dataUrl)), RemovePatch) == Merge(d, RemovePatch)
    ensures Merge(Merge(d, SlipPatch(dataUrl)), RemovePatch).paymentSlip.None?
  {
    MergeLastWriteWins(d, SlipPatch(dataUrl), RemovePatch);
  }

  /** The payment step's own state over the shared store. */
  class Uploader {
    const store: Store
    var preview: Option<string>

    constructor (store: Store)
      ensures this.store == store
      ensures preview == InitialPreview(store.currentBooking)
    {
      this.store := store;
      preview := InitialPreview(store.currentBooking);
    }

    /**
     * A JPEG or PNG file is shown and merged into the draft as its slip; any other file is
     * ignored and changes nothing.
     */
    method HandleFileChange(file: SlipFile)
      modifies this, store
      ensures IsAcceptedType(file.mimeType) ==>
        preview == Some(file.dataUrl) &&
        store.currentBooking == old(store.currentBooking).(paymentSlip := Some(file.dataUrl))
      ensures !IsAcceptedType(file.mimeType) ==>
        preview == old(preview) && store.currentBooking == old(store.currentBooking)
      ensures store.availabilityRanges == old(store.availabilityRanges) && store.bookings == old(store.bookings)
    {
      if file.mimeType == "image/jpeg" || file.mimeType == "image/png" {
        var result := file.dataUrl;
        preview := Some(result);
        store.SetCurrentBooking(SlipPatch(result));
        SlipPatchTouchesOnlySlip(old(store.currentBooking), result);
      }
    }

    /**
     * The file input and the drop area both hand over the first of the files they received,
     * and nothing when they received none.
     */
    method HandleFilesReceived(files: seq<SlipFile>)
      modifies this, store
      ensures files == [] ==>
        preview == old(preview) && store.currentBooking == old(store.currentBooking)
      ensures files != [] && IsAcceptedType(files[0].mimeType) ==>
        preview == Some(files[0].dataUrl) &&
        store.currentBooking == old(store.currentBooking).(paymentSlip := Some(files[0].dataUrl))
      ensures files != [] && !IsAcceptedType(files[0].mimeType) ==>
        preview == old(preview) && store.currentBooking == old(store.currentBooking)
      ensures store.availabilityRanges == old(store.availabilityRanges) && store.bookings == old(store.bookings)
    {
      if files != [] {
        HandleFileChange(files[0]);
      }
    }

    /** Clears the preview and sets the draft's slip to `undefined`, keeping the rest of the draft. */
    method HandleRemoveImage()
      modifies this, store
      ensures preview.None?
      ensures store.currentBooking == old(store.currentBooking).(paymentSlip := None)
      ensures store.availabilityRanges == old(store.availabilityRanges) && store.bookings == old(store.bookings)
    {
      preview := None;
      store.SetCurrentBooking(RemovePatch);
      RemovePatchTouchesOnlySlip(old(store.currentBooking));
    }

    /**
     * Adds exactly one booking built from the draft, then moves the wizard on. The draft is
     * left as it was, and whether a slip is attached makes no difference to the submit.
     */
    method HandleSubmit(now: nat, createdAt: string) returns (advance: bool)
      requires Complete(store.currentBooking)
      modifies store
      ensures store.bookings ==
        old(store.bookings) + [NewBooking(SubmittedInput(old(store.currentBooking)), "booking-" + NatToString(now), createdAt)]
      ensures store.currentBooking == old(store.currentBooking)
      ensures store.availabilityRanges == old(store.availabilityRanges)
      ensures advance
    {
      store.AddBooking(SubmittedInput(store.currentBooking), now, createdAt);
      advance := true;
    }
  }
}
