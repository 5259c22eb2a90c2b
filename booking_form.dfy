/**
 * The details step of the booking wizard: the customer's name, phone, gender, service and
 * notes, their validation, and the hand-over of the validated fields to the draft.
 */
module BookingForm {
  import opened Options
  import opened JsText
  import opened SalonStore

  /** The form's fields; an unselected gender (the empty string in the source) is `None`. */
  datatype FormData = FormData(
    fullName: string, phone: string, gender: Option<Gender>, serviceId: string, notes: string)

  /** The fields edited through `handleInputChange`. */
  datatype TextField = FullName | Phone | ServiceId | Notes

  /**
   * The keys of the errors record: the text fields and the gender (the source keys the record by
   * the field names `fullName`, `phone`, `gender`, `serviceId`, `notes`).
   */
  datatype Field = Text(field: TextField) | GenderField

  function Set(form: FormData, field: TextField, value: string): FormData {
    match field
    case FullName => form.(fullName := value)
    case Phone => form.(phone := value)
    case ServiceId => form.(serviceId := value)
    case Notes => form.(notes := value)
  }

  /** The form a draft pre-fills: each draft value, or empty where the draft has none. */
  function InitialForm(draft: Draft): (r: FormData)
    ensures draft.fullName.Some? ==> r.fullName == draft.fullName.value
    ensures draft.fullName.None? ==> r.fullName == ""
    ensures draft.phone.Some? ==> r.phone == draft.phone.value
    ensures draft.phone.None? ==> r.phone == ""
    ensures r.gender == draft.gender
    ensures draft.serviceId.Some? ==> r.serviceId == draft.serviceId.value
    ensures draft.serviceId.None? ==> r.serviceId == ""
    ensures draft.notes.Some? ==> r.notes == draft.notes.value
    ensures draft.notes.None? ==> r.notes == ""
  {
    FormData(
      if draft.fullName.Some? then draft.fullName.value else "",
      if draft.phone.Some? then draft.phone.value else "",
      draft.gender,
      if draft.serviceId.Some? then draft.serviceId.value else "",
      if draft.notes.Some? then draft.notes.value else "")
  }

  // ---------------------------------------------------------------------------------------
  // The phone rule `^\+?[\d\s-]{10,}$`

  /** A character of the class `[\d\s-]`: an ASCII digit, JavaScript white space, or `-`. */
  predicate IsPhoneChar(c: char) {
    IsDecimalDigit(c) || IsJsSpace(c) || c == '-'
  }

  predicate AllPhoneChars(s: string) {
    forall i :: 0 <= i < |s| ==> IsPhoneChar(s[i])
  }

  /** The rule as the check is made: drop a leading `+`, then ten or more class characters to the end. */
  predicate PhoneMatches(phone: string) {
    var body := if phone != [] && phone[0] == '+' then phone[1..] else phone;
    |body| >= 10 && AllPhoneChars(body)
  }

  /**
   * The pattern read as a language: the whole string is either a run of ten or more class
   * characters, or a `+` followed by such a run (the `+` is optional in the pattern).
   */
  ghost predicate PatternAccepts(phone: string) {
    (|phone| >= 10 && AllPhoneChars(phone)) ||
    (exists run :: phone == "+" + run && |run| >= 10 && AllPhoneChars(run))
  }

  /** The one-pass check accepts exactly the strings the pattern describes. */
  lemma PhoneMatchesPattern(phone: string)
    ensures PhoneMatches(phone) <==> PatternAccepts(phone)
  {
    if phone != [] && phone[0] == '+' {
      assert phone == "+" + phone[1..];
      assert !IsPhoneChar(phone[0]);
      if exists run :: phone == "+" + run && |run| >= 10 && AllPhoneChars(run) {
        var run :| phone == "+" + run && |run| >= 10 && AllPhoneChars(run);
        assert run == phone[1..];
      }
    } else {
      forall run: string
        ensures ("+" + run)[0] == '+'
      {
      }
    }
  }

  // ---------------------------------------------------------------------------------------
  // Validation

  const NameRequired := "Full name is required"
  const PhoneRequired := "Phone number is required"
  const PhoneInvalid := "Please enter a valid phone number"
  const GenderRequired := "Please select a gender"
  const ServiceRequired := "Please select a service"

  /** The outcome of each test `validate` makes. */
  datatype Checks = Checks(
    nameBlank: bool, phoneBlank: bool, phoneMatches: bool, genderMissing: bool, serviceMissing: bool)

  function ChecksOf(form: FormData): Checks {
    Checks(Trim(form.fullName) == [], Trim(form.phone) == [], PhoneMatches(form.phone),
           form.gender.None?, form.serviceId == "")
  }

  /** The errors record built from the tests, one entry per failed field, in field order. */
  function ErrorsFrom(c: Checks): map<Field, string> {
    var afterGender := AfterGender(c);
    if c.serviceMissing then afterGender[Text(ServiceId) := ServiceRequired] else afterGender
  }

  function AfterName(c: Checks): map<Field, string> {
    if c.nameBlank then map[Text(FullName) := NameRequired] else map[]
  }

  function AfterPhone(c: Checks): map<Field, string> {
    var afterName := AfterName(c);
    if c.phoneBlank then afterName[Text(Phone) := PhoneRequired]
    else if !c.phoneMatches then afterName[Text(Phone) := PhoneInvalid]
    else afterName
  }

  function AfterGender(c: Checks): map<Field, string> {
    var afterPhone := AfterPhone(c);
    if c.genderMissing then afterPhone[GenderField := GenderRequired] else afterPhone
  }

  /** Each key is present exactly when its test failed, with its message, and no other key appears. */
  lemma ErrorsFromKeys(c: Checks)
    ensures Text(FullName) in ErrorsFrom(c) <==> c.nameBlank
    ensures c.nameBlank ==> ErrorsFrom(c)[Text(FullName)] == NameRequired
    ensures Text(Phone) in ErrorsFrom(c) <==> c.phoneBlank || !c.phoneMatches
    ensures c.phoneBlank ==> ErrorsFrom(c)[Text(Phone)] == PhoneRequired
    ensures !c.phoneBlank && !c.phoneMatches ==> ErrorsFrom(c)[Text(Phone)] == PhoneInvalid
    ensures GenderField in ErrorsFrom(c) <==> c.genderMissing
    ensures c.genderMissing ==> ErrorsFrom(c)[GenderField] == GenderRequired
    ensures Text(ServiceId) in ErrorsFrom(c) <==> c.serviceMissing
    ensures c.serviceMissing ==> ErrorsFrom(c)[Text(ServiceId)] == ServiceRequired
    ensures ErrorsFrom(c).Keys <= {Text(FullName), Text(Phone), GenderField, Text(ServiceId)}
  {
  }

  /** Builds the errors record one failed test at a time, as `validate` does. */
  method CollectErrors(checks: Checks) returns (newErrors: map<Field, string>)
    ensures newErrors == ErrorsFrom(checks)
  {
    newErrors := map[];
    if checks.nameBlank {
      newErrors := newErrors[Text(FullName) := NameRequired];
    }
    if checks.phoneBlank {
      newErrors := newErrors[Text(Phone) := PhoneRequired];
    } else if !checks.phoneMatches {
      newErrors := newErrors[Text(Phone) := PhoneInvalid];
    }
    if checks.genderMissing {
      newErrors := newErrors[GenderField := GenderRequired];
    }
    if checks.serviceMissing {
      newErrors := newErrors[Text(ServiceId) := ServiceRequired];
    }
  }

  /** `Object.keys(m).length === 0` exactly when the record is empty. */
  lemma NoKeysIffEmpty(m: map<Field, string>)
    ensures |m.Keys| == 0 <==> m == map[]
  {
    if m != map[] {
      var k :| k in m;
      assert k in m.Keys;
    }
  }

  /** The errors record `validate` builds for a form. */
  function ValidationErrors(form: FormData): map<Field, string> {
    ErrorsFrom(ChecksOf(form))
  }

  /** A name error is recorded exactly when the name is nothing but white space. */
  lemma NameErrorIff(form: FormData)
    ensures Text(FullName) in ValidationErrors(form) <==>
      forall i :: 0 <= i < |form.fullName| ==> IsJsSpace(form.fullName[i])
  {
    ErrorsFromKeys(ChecksOf(form));
    TrimEmptyIffAllSpace(form.fullName);
  }

  /**
   * A phone error is recorded exactly when the trimmed phone is empty (the "required" message)
   * or the untrimmed phone does not match the pattern (the "invalid" message).
   */
  lemma PhoneErrorIff(form: FormData)
    ensures Text(Phone) in ValidationErrors(form) <==> Trim(form.phone) == [] || !PatternAccepts(form.phone)
    ensures Trim(form.phone) == [] ==> ValidationErrors(form)[Text(Phone)] == PhoneRequired
    ensures Trim(form.phone) != [] && !PatternAccepts(form.phone) ==> ValidationErrors(form)[Text(Phone)] == PhoneInvalid
  {
    ErrorsFromKeys(ChecksOf(form));
    PhoneMatchesPattern(form.phone);
  }

  /** Gender and service errors are recorded exactly when nothing is chosen, and no other key appears. */
  lemma ChoiceErrorsIff(form: FormData)
    ensures GenderField in ValidationErrors(form) <==> form.gender.None?
    ensures Text(ServiceId) in ValidationErrors(form) <==> form.serviceId == ""
    ensures ValidationErrors(form).Keys <= {Text(FullName), Text(Phone), GenderField, Text(ServiceId)}
  {
    ErrorsFromKeys(ChecksOf(form));
  }

  /** A form passes exactly when every field is acceptable. */
  lemma ValidIff(form: FormData)
    ensures ValidationErrors(form) == map[] <==>
      Trim(form.fullName) != [] && Trim(form.phone) != [] && PatternAccepts(form.phone) &&
      form.gender.Some? && form.serviceId != ""
  {
    PhoneMatchesPattern(form.phone);
    ErrorsFromKeys(ChecksOf(form));
    var e := ValidationErrors(form);
    if e != map[] {
      var k :| k in e;
    }
  }

  /** The services offered for a gender: the men's list, the women's list, or none before a choice. */
  function ServicesFor(gender: Option<Gender>, men: seq<Service>, women: seq<Service>): (r: seq<Service>)
    ensures gender.None? ==> r == []
    ensures gender == Some(Men) ==> r == men
    ensures gender == Some(Women) ==> r == women
  {
    match gender
    case None => []
    case Some(Men) => men
    case Some(Women) => women
  }

  /** Every service offered from the seed catalogue is one for the chosen gender. */
  lemma OfferedServicesMatchGender(gender: Gender, s: Service)
    requires s in ServicesFor(Some(gender), MenServices, WomenServices)
    ensures s.gender == gender
  {
  }

  /** The draft patch a successful submit merges: the five form fields, nothing else. */
  function SubmitPatch(form: FormData): DraftPatch
    requires form.gender.Some?
  {
    NoChange.(fullName := Put(form.fullName), phone := Put(form.phone), gender := Put(form.gender.value),
              serviceId := Put(form.serviceId), notes := Put(form.notes))
  }

  /** A submit writes the five fields into the draft and keeps every other draft field as it was. */
  lemma SubmitKeepsBookingContext(draft: Draft, form: FormData)
    requires form.gender.Some?
    ensures Merge(draft, SubmitPatch(form)).fullName == Some(form.fullName)
    ensures Merge(draft, SubmitPatch(form)).gender == form.gender
    ensures Merge(draft, SubmitPatch(form)).notes == Some(form.notes)
    ensures Merge(draft, SubmitPatch(form)) ==
      draft.(fullName := Some(form.fullName), phone := Some(form.phone), gender := form.gender,
             serviceId := Some(form.serviceId), notes := Some(form.notes))
  {
  }

  /** The details step's own state over the shared store. */
  class Form {
    const store: Store
    var formData: FormData
    var errors: map<Field, string>

    constructor (store: Store)
      ensures this.store == store
      ensures formData == InitialForm(store.currentBooking) && errors == map[]
    {
      this.store := store;
      formData := InitialForm(store.currentBooking);
      errors := map[];
    }

    /** The services the service list offers for the chosen gender. */
    function Services(): (r: seq<Service>)
      reads this, store
      ensures r == ServicesFor(formData.gender, store.menServices, store.womenServices)
    {
      if formData.gender == Some(Men) then store.menServices
      else if formData.gender == Some(Women) then store.womenServices
      else []
    }

    /** Typing into a field sets it; a shown error for that field is blanked, every other entry stays. */
    method HandleInputChange(field: TextField, value: string)
      modifies this
      ensures formData == Set(old(formData), field, value)
      ensures Text(field) in old(errors) && old(errors)[Text(field)] != "" ==> errors == old(errors)[Text(field) := ""]
      ensures !(Text(field) in old(errors) && old(errors)[Text(field)] != "") ==> errors == old(errors)
      ensures forall k :: k != Text(field) ==> (k in errors <==> k in old(errors))
      ensures forall k :: k != Text(field) && k in errors ==> errors[k] == old(errors)[k]
    {
      formData := Set(formData, field, value);
      if Text(field) in errors && errors[Text(field)] != "" {
        errors := errors[Text(field) := ""];
      }
    }

    /** Choosing a gender clears the chosen service, whose list has just changed. */
    method HandleGenderChange(value: Gender)
      modifies this
      ensures formData == old(formData).(gender := Some(value), serviceId := "")
      ensures errors == old(errors)
    {
      formData := formData.(gender := Some(value), serviceId := "");
    }

    /** Records the errors of the current form, field by field, and reports whether there were none. */
    method Validate() returns (ok: bool)
      modifies this
      ensures errors == ValidationErrors(formData)
      ensures formData == old(formData)
      ensures ok <==> errors == map[]
    {
      var checks := ChecksOf(formData);
      var newErrors := CollectErrors(checks);
      errors := newErrors;
      ok := |newErrors.Keys| == 0;
      NoKeysIffEmpty(newErrors);
    }

    /** Submit: with a valid form, merge the five fields into the draft and move on; otherwise only show the errors. */
    method HandleSubmit() returns (advance: bool)
      modifies this, store
      ensures formData == old(formData)
      ensures errors == ValidationErrors(old(formData))
      ensures advance <==> ValidationErrors(old(formData)) == map[]
      ensures advance ==> old(formData).gender.Some?
      ensures advance ==> store.currentBooking == Merge(old(store.currentBooking), SubmitPatch(old(formData)))
      ensures !advance ==> store.currentBooking == old(store.currentBooking)
      ensures store.availabilityRanges == old(store.availabilityRanges) && store.bookings == old(store.bookings)
    {
      advance := Validate();
      if advance {
        ValidIff(formData);
        store.SetCurrentBooking(SubmitPatch(formData));
      }
    }
  }
}
