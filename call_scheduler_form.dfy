/**
 * app/schedule/components/call-scheduler-form.tsx: the scheduling form. It validates
 * five fields, keeps a draft of them in `localStorage` under its own key, restores the
 * draft on mount, and on submit hands the fields to the page's `onSubmit`; after a
 * successful submission it clears the scheduling fields and keeps name and phone.
 *
 * "Now" is a parameter wherever the source reads the clock.
 */
module CallSchedulerForm {
  import opened Wrappers
  import opened Text
  import opened Browser
  import SchedulePage

  const FormStorageKey: string := "schedule_form_data"

  /** The five fields, in the order `validateForm` checks them. */
  datatype Field = Name | PhoneNumber | Date | Time | Reason

  const Fields: seq<Field> := [Name, PhoneNumber, Date, Time, Reason]

  /** A field's name as the source spells it: its key in `errors` and `touched`. */
  function Key(f: Field): string {
    match f
    case Name => "name"
    case PhoneNumber => "phone_number"
    case Date => "date"
    case Time => "time"
    case Reason => "reason"
  }

  /** The field a name denotes, if it denotes one. */
  function FieldNamed(k: string): (r: Option<Field>)
    ensures r.Some? ==> Key(r.value) == k
  {
    if k == "name" then Some(Name)
    else if k == "phone_number" then Some(PhoneNumber)
    else if k == "date" then Some(Date)
    else if k == "time" then Some(Time)
    else if k == "reason" then Some(Reason)
    else None
  }

  /** Every field's name denotes that field, so no two fields share a key. */
  lemma KeyRoundTrip(f: Field)
    ensures FieldNamed(Key(f)) == Some(f)
  {
    match f
    case Name =>
    case PhoneNumber => assert Key(f)[0] == 'p';
    case Date => assert Key(f)[0] == 'd';
    case Time => assert Key(f)[0] == 't';
    case Reason => assert Key(f)[0] == 'r';
  }

  /** A field's current value: the date picker's date, or the text of any other field. */
  datatype FieldValue = TextValue(s: string) | DateValue(d: Option<int>)

  /** The five state variables of the form; `date` is the picked day as an instant (local midnight). */
  datatype FormValues = FormValues(date: Option<int>, time: string, reason: string, name: string, phoneNumber: string)

  /** The values `useState` starts with. */
  const Blank := FormValues(None, "", "", "", "")

  /** The current value of a field (`handleBlur`'s ternary chain). */
  function ValueOf(f: Field, v: FormValues): (r: FieldValue)
    ensures r.DateValue? <==> f == Date
  {
    match f
    case Date => DateValue(v.date)
    case PhoneNumber => TextValue(v.phoneNumber)
    case Name => TextValue(v.name)
    case Time => TextValue(v.time)
    case Reason => TextValue(v.reason)
  }

  /**
   * The rule `validateField` applies to one field: an error message, or `None`. Lengths are
   * counted the way JavaScript counts them, in UTF-16 code units, after trimming.
   */
  function Check(f: Field, value: FieldValue, now: int): Option<string>
    requires value.DateValue? <==> f == Date
  {
    match f
    case Name =>
      if Trim(value.s) == [] then Some("Name is required")
      else if Utf16Length(Trim(value.s)) < 2 then Some("Name must be at least 2 characters")
      else None
    case PhoneNumber =>
      // the phone widget checks the number's format itself
      if Trim(value.s) == [] then Some("Phone number is required") else None
    case Date =>
      if value.d.None? then Some("Date is required")
      else if value.d.value < now then Some("Please select a future date")
      else None
    case Time =>
      if Trim(value.s) == [] then Some("Time is required") else None
    case Reason =>
      if Trim(value.s) == [] then Some("Reason is required")
      else if Utf16Length(Trim(value.s)) < 5 then Some("Reason must be at least 5 characters")
      else None
  }

  /** Which values each field rejects. */
  lemma CheckRules(f: Field, value: FieldValue, now: int)
    requires value.DateValue? <==> f == Date
    ensures f == Name ==> (Check(f, value, now).Some? <==> Utf16Length(Trim(value.s)) < 2)
    ensures f == Reason ==> (Check(f, value, now).Some? <==> Utf16Length(Trim(value.s)) < 5)
    ensures f == PhoneNumber || f == Time ==> (Check(f, value, now).Some? <==> Trim(value.s) == [])
    ensures f == Date ==> (Check(f, value, now).Some? <==> value.d.None? || value.d.value < now)
  {
  }

  /** `validateField(field, value)` on the form's current values; a name outside the five is never rejected. */
  function ValidateField(field: string, v: FormValues, now: int): (r: Option<string>)
    ensures FieldNamed(field).None? ==> r.None?
  {
    match FieldNamed(field)
    case None => None
    case Some(f) => Check(f, ValueOf(f, v), now)
  }

  /** Whether field `f` fails validation. */
  predicate Fails(f: Field, v: FormValues, now: int) {
    Check(f, ValueOf(f, v), now).Some?
  }

  /** The error map after validating the fields of `fs` in order, starting from no errors. */
  function ErrorsOf(fs: seq<Field>, v: FormValues, now: int): map<string, string>
    decreases |fs|
  {
    if fs == [] then map[]
    else
      var f := fs[|fs| - 1];
      var rest := ErrorsOf(fs[..|fs| - 1], v, now);
      if Fails(f, v, now) then rest[Key(f) := Check(f, ValueOf(f, v), now).value] else rest
  }

  /** The error map holds exactly the failing fields of `fs`, each with its own message. */
  lemma {:induction false} ErrorsOfKeys(fs: seq<Field>, v: FormValues, now: int)
    ensures forall k :: k in ErrorsOf(fs, v, now) <==>
      FieldNamed(k).Some? && FieldNamed(k).value in fs && Fails(FieldNamed(k).value, v, now)
    ensures forall k :: k in ErrorsOf(fs, v, now) && FieldNamed(k).Some? && Fails(FieldNamed(k).value, v, now) ==>
      ErrorsOf(fs, v, now)[k] == Check(FieldNamed(k).value, ValueOf(FieldNamed(k).value, v), now).value
    decreases |fs|
  {
    if fs != [] {
      var f := fs[|fs| - 1];
      var init := fs[..|fs| - 1];
      ErrorsOfKeys(init, v, now);
      KeyRoundTrip(f);
      assert fs == init + [f];
      forall k | FieldNamed(k).Some?
        ensures FieldNamed(k).value in fs <==> FieldNamed(k).value in init || FieldNamed(k).value == f
      {
      }
    }
  }

  /** The error map `validateForm` sets. */
  function FormErrors(v: FormValues, now: int): map<string, string> {
    ErrorsOf(Fields, v, now)
  }

  /** `validateForm` reports a field exactly when it fails, so the form is valid exactly when no field fails. */
  lemma FormErrorsExact(v: FormValues, now: int)
    ensures forall f :: Key(f) in FormErrors(v, now) <==> Fails(f, v, now)
    ensures FormErrors(v, now) == map[] <==> forall f :: !Fails(f, v, now)
  {
    forall f ensures Key(f) in FormErrors(v, now) <==> Fails(f, v, now) {
      BlurAgreesWithSubmit(f, v, now);
    }
    if FormErrors(v, now) != map[] {
      var k :| k in FormErrors(v, now);
      ErrorsOfKeys(Fields, v, now);
      var f := FieldNamed(k).value;
      assert Fails(f, v, now);
    }
  }

  /** Blurring a field reports the same message for it as validating the whole form. */
  lemma BlurAgreesWithSubmit(f: Field, v: FormValues, now: int)
    ensures ValidateField(Key(f), v, now).Some? <==> Key(f) in FormErrors(v, now)
    ensures Key(f) in FormErrors(v, now) ==> FormErrors(v, now)[Key(f)] == ValidateField(Key(f), v, now).value
  {
    KeyRoundTrip(f);
    ErrorsOfKeys(Fields, v, now);
    assert f in Fields by {
      match f
      case Name => case PhoneNumber => case Date => case Time => case Reason =>
    }
  }

  /** An error-free form has a date that is not in the past, so `date!` on submit is defined. */
  lemma ValidHasDate(v: FormValues, now: int)
    requires FormErrors(v, now) == map[]
    ensures v.date.Some? && v.date.value >= now
    ensures Utf16Length(Trim(v.name)) >= 2 && Utf16Length(Trim(v.reason)) >= 5
    ensures Trim(v.phoneNumber) != [] && Trim(v.time) != []
  {
    FormErrorsExact(v, now);
    assert !Fails(Date, v, now) && !Fails(Name, v, now) && !Fails(Reason, v, now);
    assert !Fails(PhoneNumber, v, now) && !Fails(Time, v, now);
    CheckRules(Date, ValueOf(Date, v), now);
    CheckRules(Name, ValueOf(Name, v), now);
    CheckRules(Reason, ValueOf(Reason, v), now);
    CheckRules(PhoneNumber, ValueOf(PhoneNumber, v), now);
    CheckRules(Time, ValueOf(Time, v), now);
  }

  /** With a valid schedule and empty identity fields, exactly the name and phone errors are reported. */
  lemma OnlyIdentityErrors(v: FormValues, now: int)
    requires v.name == [] && v.phoneNumber == []
    requires v.date.Some? && v.date.value >= now
    requires Trim(v.time) != [] && Utf16Length(Trim(v.reason)) >= 5
    ensures FormErrors(v, now) == map["name" := "Name is required", "phone_number" := "Phone number is required"]
  {
    CheckRules(Reason, ValueOf(Reason, v), now);
    assert Fields[..4][..3] == Fields[..3] && Fields[..3][..2] == Fields[..2];
    assert Fields[..2][..1] == Fields[..1] && Fields[..1][..0] == [];
    assert ErrorsOf(Fields[..1], v, now) == map["name" := "Name is required"];
    assert ErrorsOf(Fields[..2], v, now) == map["name" := "Name is required", "phone_number" := "Phone number is required"];
    assert ErrorsOf(Fields[..3], v, now) == ErrorsOf(Fields[..2], v, now);
    assert ErrorsOf(Fields[..4], v, now) == ErrorsOf(Fields[..3], v, now);
    assert Fields[..4] == Fields[..|Fields| - 1];
  }

  /** A date before now is always reported, whatever the other fields hold. */
  lemma PastDateRejected(v: FormValues, now: int)
    requires v.date.Some? && v.date.value < now
    ensures "date" in FormErrors(v, now)
    ensures FormErrors(v, now)["date"] == "Please select a future date"
  {
    ErrorsOfKeys(Fields, v, now);
    KeyRoundTrip(Date);
    assert Date in Fields;
  }

  /** The JSON the save effect writes: `date` is left out when unset, as `JSON.stringify` drops `undefined`. */
  function DraftRecord(v: FormValues): (r: Record)
    ensures r.Keys == {"time", "reason", "name", "phoneNumber"} + (if v.date.Some? then {"date"} else {})
  {
    map["time" := Text(v.time), "reason" := Text(v.reason), "name" := Text(v.name), "phoneNumber" := Text(v.phoneNumber)]
    + (if v.date.Some? then map["date" := Instant(v.date.value)] else map[])
  }

  /** A stored text field, or "" when it is absent (or not text). */
  function TextAt(rec: Record, key: string): string {
    if key in rec && rec[key].Text? then rec[key].s else ""
  }

  /** The stored date, if any. */
  function DateAt(rec: Record): Option<int> {
    if "date" in rec && rec["date"].Instant? then Some(rec["date"].ms) else None
  }

  /**
   * The load-on-mount effect: each field is taken from the stored draft when it is
   * present and truthy, and otherwise keeps its value; a missing or unparsable draft
   * changes nothing.
   */
  function Restore(v: FormValues, e: Option<Entry>): (r: FormValues)
    ensures (e.None? || e == Some(Malformed)) ==> r == v
  {
    match e
    case Some(Json(rec)) =>
      FormValues(
        if DateAt(rec).Some? then DateAt(rec) else v.date,
        if TextAt(rec, "time") != "" then TextAt(rec, "time") else v.time,
        if TextAt(rec, "reason") != "" then TextAt(rec, "reason") else v.reason,
        if TextAt(rec, "name") != "" then TextAt(rec, "name") else v.name,
        if TextAt(rec, "phoneNumber") != "" then TextAt(rec, "phoneNumber") else v.phoneNumber)
    case _ => v
  }

  /** A fresh form restores exactly the values whose draft was saved. */
  lemma RestoreDraft(v: FormValues)
    ensures Restore(Blank, Some(Json(DraftRecord(v)))) == v
  {
    var rec := DraftRecord(v);
    assert TextAt(rec, "time") == v.time;
    assert TextAt(rec, "reason") == v.reason;
    assert TextAt(rec, "name") == v.name;
    assert TextAt(rec, "phoneNumber") == v.phoneNumber;
    assert DateAt(rec) == v.date;
  }

  /** Loading a saved draft and saving it again writes the same draft. */
  lemma RestoreThenSaveIdempotent(v: FormValues)
    ensures DraftRecord(Restore(Blank, Some(Json(DraftRecord(v))))) == DraftRecord(v)
  {
    RestoreDraft(v);
  }

  /** `setTouched` on submit: all five fields, and nothing else. */
  const AllTouched: map<string, bool> :=
    map["name" := true, "phone_number" := true, "date" := true, "time" := true, "reason" := true]

  /** The values the form keeps after `resetForm`: name and phone only. */
  function AfterReset(v: FormValues): (r: FormValues)
    ensures r.date.None? && r.time == "" && r.reason == ""
    ensures r.name == v.name && r.phoneNumber == v.phoneNumber
  {
    v.(date := None, time := "", reason := "")
  }

  /**
   * After a successful submission the page removes the draft and `resetForm` writes it
   * again, so a reload restores name and phone with the scheduling fields empty.
   */
  lemma ReloadAfterSuccess(items: map<string, Entry>, v: FormValues)
    ensures var after := (items - {SchedulePage.FormStorageKey})[FormStorageKey := Json(DraftRecord(AfterReset(v)))];
      Restore(Blank, Get(after, FormStorageKey)) == Blank.(name := v.name, phoneNumber := v.phoneNumber)
  {
    RestoreDraft(AfterReset(v));
  }

  /**
   * A stored `date` held as non-empty text rather than as an instant, which the model counts
   * as one `new Date(data.date)` cannot read. The save effect writes every date as an instant.
   */
  predicate UnreadableDate(rec: Record) {
    "date" in rec && rec["date"].Text? && rec["date"].s != ""
  }

  /** How mounting ends: the values shown and the draft left stored, or a render error with the draft left stored. */
  datatype Mount = Mounted(values: FormValues, draft: Record) | Crashed(draft: Record)

  /**
   * Mounting as the effects run it. In the first commit the load effect schedules its
   * updates and the save effect then stores the blank initial values. The next render
   * evaluates `format(date, "PPP")` for the date button, which throws on an Invalid Date
   * before that commit's effects run.
   */
  function MountAsWritten(saved: Option<Entry>): Mount {
    match saved
    case Some(Json(rec)) =>
      if UnreadableDate(rec) then Crashed(DraftRecord(Blank))
      else Mounted(Restore(Blank, saved), DraftRecord(Restore(Blank, saved)))
    case _ => Mounted(Restore(Blank, saved), DraftRecord(Restore(Blank, saved)))
  }

  /** Mounting with an unreadable date treated as no date: every other stored field is restored. */
  function MountCorrected(saved: Option<Entry>): Mount {
    Mounted(Restore(Blank, saved), DraftRecord(Restore(Blank, saved)))
  }

  /** As written, a draft with an unreadable date crashes the form and leaves a blank draft, so a reload restores nothing. */
  lemma UnreadableDateCrashesMount(rec: Record)
    requires UnreadableDate(rec)
    ensures MountAsWritten(Some(Json(rec))).Crashed?
    ensures Restore(Blank, Some(Json(MountAsWritten(Some(Json(rec))).draft))) == Blank
  {
    RestoreDraft(Blank);
  }

  /**
   * Corrected, mounting never crashes: the readable fields are shown, an unreadable date is
   * dropped, and the stored draft restores exactly what is shown.
   */
  lemma MountKeepsReadableFields(rec: Record)
    ensures MountCorrected(Some(Json(rec))).Mounted?
    ensures var m := MountCorrected(Some(Json(rec)));
      && m.values.name == TextAt(rec, "name") && m.values.phoneNumber == TextAt(rec, "phoneNumber")
      && m.values.time == TextAt(rec, "time") && m.values.reason == TextAt(rec, "reason")
      && (UnreadableDate(rec) ==> m.values.date.None?)
      && Restore(Blank, Some(Json(m.draft))) == m.values
  {
    RestoreDraft(Restore(Blank, Some(Json(rec))));
  }

  /** The day the form submits: `format(date!, "yyyy-MM-dd")` of the picked instant. */
  function SubmittedData(v: FormValues): (d: SchedulePage.ScheduleCallData)
    requires v.date.Some?
    ensures d.day * SchedulePage.MsPerDay <= v.date.value < (d.day + 1) * SchedulePage.MsPerDay
    ensures d.time == v.time && d.reason == v.reason && d.name == v.name && d.phoneNumber == v.phoneNumber
  {
    SchedulePage.ScheduleCallData(v.date.value / SchedulePage.MsPerDay, v.time, v.reason, v.name, v.phoneNumber)
  }

  /** What the user's profile upsert came to before the call is handed on. */
  datatype ProfileStep = NoUser | ProfileSaved | ProfileSaveFailed

  const ProfileWarningToast := Toast("Warning", "Your call was scheduled, but we couldn't save your profile information.", true)
  const SubmitFailedToast := Toast("Error", "Failed to schedule call. Please try again.", true)

  /** The toasts shown before `onSubmit`: the warning exactly when the profile upsert failed. */
  function Warned(profile: ProfileStep): (r: seq<Toast>)
    ensures ProfileWarningToast in r <==> profile == ProfileSaveFailed
    ensures |r| <= 1
  {
    if profile == ProfileSaveFailed then [ProfileWarningToast] else []
  }

  class SchedulerForm {
    var date: Option<int>
    var time: string
    var reason: string
    var name: string
    var phoneNumber: string
    var errors: map<string, string>
    var touched: map<string, bool>
    var isSubmitting: bool
    const storage: LocalStorage
    const toaster: Toaster

    function Values(): FormValues
      reads this
    {
      FormValues(date, time, reason, name, phoneNumber)
    }

    /** The save effect has run on the current values: the stored draft mirrors them. */
    ghost predicate DraftSaved()
      reads this, storage
    {
      Get(storage.items, FormStorageKey) == Some(Json(DraftRecord(Values())))
    }

    /** Mounting: the state starts blank, the stored draft is restored, then the save effect runs. */
    constructor (storage: LocalStorage, toaster: Toaster)
      modifies storage
      ensures this.storage == storage && this.toaster == toaster
      ensures Values() == Restore(Blank, Get(old(storage.items), FormStorageKey))
      ensures MountCorrected(Get(old(storage.items), FormStorageKey)) == Mounted(Values(), DraftRecord(Values()))
      ensures errors == map[] && touched == map[] && !isSubmitting
      ensures storage.items == old(storage.items)[FormStorageKey := Json(DraftRecord(Values()))]
      ensures DraftSaved()
    {
      date, time, reason, name, phoneNumber := None, "", "", "", "";
      errors, touched, isSubmitting := map[], map[], false;
      this.storage := storage;
      this.toaster := toaster;
      new;
      var saved := storage.GetItem(FormStorageKey);
      LoadDraft(saved);
      storage.SetItem(FormStorageKey, DraftRecord(Values()));
    }

    /** The load effect: each field stored in a parsable draft, when truthy, replaces the current one. */
    method LoadDraft(saved: Option<Entry>)
      modifies this`date, this`time, this`reason, this`name, this`phoneNumber
      ensures Values() == Restore(old(Values()), saved)
    {
      if saved.Some? && saved.value.Json? {
        var data := saved.value.rec;
        if DateAt(data).Some? { date := DateAt(data); }
        if TextAt(data, "time") != "" { time := TextAt(data, "time"); }
        if TextAt(data, "reason") != "" { reason := TextAt(data, "reason"); }
        if TextAt(data, "name") != "" { name := TextAt(data, "name"); }
        if TextAt(data, "phoneNumber") != "" { phoneNumber := TextAt(data, "phoneNumber"); }
      }
    }

    /** The save effect: it runs only when one of the five values changed. */
    method SaveDraft(previous: FormValues)
      requires Get(storage.items, FormStorageKey) == Some(Json(DraftRecord(previous)))
      modifies storage
      ensures DraftSaved()
      ensures storage.items == old(storage.items)[FormStorageKey := Json(DraftRecord(Values()))]
    {
      if Values() != previous {
        storage.SetItem(FormStorageKey, DraftRecord(Values()));
      } else {
        assert storage.items == storage.items[FormStorageKey := Json(DraftRecord(Values()))];
      }
    }

    /** The user edits fields (the `onChange` setters); the save effect follows. */
    method Edit(v: FormValues)
      requires DraftSaved()
      modifies this`date, this`time, this`reason, this`name, this`phoneNumber, storage
      ensures Values() == v && DraftSaved()
      ensures storage.items == old(storage.items)[FormStorageKey := Json(DraftRecord(v))]
    {
      var previous := Values();
      date, time, reason, name, phoneNumber := v.date, v.time, v.reason, v.name, v.phoneNumber;
      SaveDraft(previous);
    }

    /** The stored profile arrives: `setName(profile.name || "")`, `setPhoneNumber(profile.phone_number || "")`. */
    method ApplyProfile(profileName: Option<string>, profilePhone: Option<string>)
      requires DraftSaved()
      modifies this`name, this`phoneNumber, storage
      ensures name == profileName.GetOr("") && phoneNumber == profilePhone.GetOr("")
      ensures date == old(date) && time == old(time) && reason == old(reason)
      ensures DraftSaved()
      ensures storage.items == old(storage.items)[FormStorageKey := Json(DraftRecord(Values()))]
    {
      var previous := Values();
      name := profileName.GetOr("");
      phoneNumber := profilePhone.GetOr("");
      SaveDraft(previous);
    }

    /** `handleBlur(field)`: marks the field touched and sets or clears its error. */
    method HandleBlur(field: string, now: int)
      modifies this`touched, this`errors
      ensures touched == old(touched)[field := true]
      ensures var e := ValidateField(field, Values(), now);
        errors == if e.Some? then old(errors)[field := e.value] else old(errors) - {field}
    {
      touched := touched[field := true];
      var e := ValidateField(field, Values(), now);
      if e.Some? {
        errors := errors[field := e.value];
      } else {
        errors := errors - {field};
      }
    }

    /** `validateForm`: validates the five fields in turn, records the failing ones, reports validity. */
    method ValidateForm(now: int) returns (isValid: bool)
      modifies this`errors
      ensures errors == FormErrors(Values(), now)
      ensures isValid <==> errors == map[]
    {
      var newErrors: map<string, string> := map[];
      isValid := true;
      var i := 0;
      while i < |Fields|
        invariant 0 <= i <= |Fields|
        invariant newErrors == ErrorsOf(Fields[..i], Values(), now)
        invariant isValid <==> newErrors == map[]
      {
        var field := Fields[i];
        var error := Check(field, ValueOf(field, Values()), now);
        if error.Some? {
          newErrors := newErrors[Key(field) := error.value];
          assert Key(field) in newErrors;
          isValid := false;
        }
        assert Fields[..i + 1] == Fields[..i] + [field];
        i := i + 1;
      }
      assert Fields[..|Fields|] == Fields;
      errors := newErrors;
    }

    /** `resetForm` (also the Clear button): only the scheduling fields are cleared; the draft keeps name and phone. */
    method ResetForm()
      modifies this`date, this`time, this`reason, this`errors, this`touched, storage
      ensures Values() == AfterReset(old(Values()))
      ensures errors == old(errors) - {"date", "time", "reason"}
      ensures touched == old(touched)["date" := false]["time" := false]["reason" := false]
      ensures storage.items == old(storage.items)[FormStorageKey := Json(DraftRecord(Values()))]
      ensures DraftSaved()
    {
      date, time, reason := None, "", "";
      errors := errors - {"date", "time", "reason"};
      touched := touched["date" := false]["time" := false]["reason" := false];
      storage.SetItem(FormStorageKey, DraftRecord(Values()));
      // the save effect that follows writes this same record again
    }

    /**
     * `handleSubmit`. `profile` is the outcome of the profile upsert and `responseOk` the
     * webhook's answer; `page` supplies `onSubmit`. It returns whether `onSubmit` succeeded.
     */
    method HandleSubmit(now: int, profile: ProfileStep, page: SchedulePage.SchedulePage, responseOk: bool)
      returns (scheduled: bool)
      requires page.storage == storage && page.toaster == toaster
      modifies this`date, this`time, this`reason, this`errors, this`touched, this`isSubmitting
      modifies storage, toaster, page`sent
      ensures errors == FormErrors(old(Values()), now)
      ensures isSubmitting == (old(isSubmitting) && FormErrors(old(Values()), now) != map[])
      ensures FormErrors(old(Values()), now) != map[] ==>
        && !scheduled && Values() == old(Values()) && touched == AllTouched
        && page.sent == old(page.sent) && storage.items == old(storage.items)
        && toaster.shown == old(toaster.shown)
      ensures FormErrors(old(Values()), now) == map[] ==>
        && old(date).Some?
        && var data := SubmittedData(old(Values()));
           var t := SchedulePage.ScheduleInstant(data.day, data.time);
           && scheduled == (t.Some? && responseOk)
           && page.sent == old(page.sent) + (if t.Some? then [SchedulePage.WebhookBody(data, t.value, page.user)] else [])
           && (scheduled ==>
                 && Values() == AfterReset(old(Values()))
                 && touched == AllTouched["date" := false]["time" := false]["reason" := false]
                 && storage.items == old(storage.items)[FormStorageKey := Json(DraftRecord(Values()))]
                 && toaster.shown == old(toaster.shown) + Warned(profile) + [SchedulePage.ScheduledToast])
           && (!scheduled ==>
                 && Values() == old(Values()) && touched == AllTouched
                 && storage.items == old(storage.items)
                 && toaster.shown == old(toaster.shown) + Warned(profile)
                    + [SchedulePage.ScheduleFailedToast, SubmitFailedToast])
    {
      touched := AllTouched;
      var isValid := ValidateForm(now);
      if !isValid {
        return false;
      }
      ValidHasDate(Values(), now);
      scheduled := Submit(SubmittedData(Values()), profile, page, responseOk);
    }

    /**
     * The part of `handleSubmit` after validation passed: the profile warning, if any,
     * then `onSubmit(data)`, then `resetForm` or the error toast.
     */
    method Submit(data: SchedulePage.ScheduleCallData, profile: ProfileStep, page: SchedulePage.SchedulePage,
                  responseOk: bool) returns (scheduled: bool)
      requires page.storage == storage && page.toaster == toaster
      modifies this`date, this`time, this`reason, this`errors, this`touched, this`isSubmitting
      modifies storage, toaster, page`sent
      ensures !isSubmitting
      ensures var t := SchedulePage.ScheduleInstant(data.day, data.time);
        && scheduled == (t.Some? && responseOk)
        && page.sent == old(page.sent) + (if t.Some? then [SchedulePage.WebhookBody(data, t.value, page.user)] else [])
        && (scheduled ==>
              && Values() == AfterReset(old(Values()))
              && errors == old(errors) - {"date", "time", "reason"}
              && touched == old(touched)["date" := false]["time" := false]["reason" := false]
              && storage.items == old(storage.items)[FormStorageKey := Json(DraftRecord(Values()))]
              && toaster.shown == old(toaster.shown) + Warned(profile) + [SchedulePage.ScheduledToast])
        && (!scheduled ==>
              && Values() == old(Values()) && errors == old(errors) && touched == old(touched)
              && storage.items == old(storage.items)
              && toaster.shown == old(toaster.shown) + Warned(profile)
                 + [SchedulePage.ScheduleFailedToast, SubmitFailedToast])
    {
      isSubmitting := true;
      if profile == ProfileSaveFailed {
        toaster.Show(ProfileWarningToast);
      }
      scheduled := Schedule(data, page, responseOk);
      isSubmitting := false;
    }

    /** `await onSubmit(data)`, then `resetForm()` on success or the form's own error toast. */
    method Schedule(data: SchedulePage.ScheduleCallData, page: SchedulePage.SchedulePage, responseOk: bool)
      returns (scheduled: bool)
      requires page.storage == storage && page.toaster == toaster
      modifies this`date, this`time, this`reason, this`errors, this`touched
      modifies storage, toaster, page`sent
      ensures var t := SchedulePage.ScheduleInstant(data.day, data.time);
        && scheduled == (t.Some? && responseOk)
        && page.sent == old(page.sent) + (if t.Some? then [SchedulePage.WebhookBody(data, t.value, page.user)] else [])
      ensures scheduled ==>
        && Values() == AfterReset(old(Values()))
        && errors == old(errors) - {"date", "time", "reason"}
        && touched == old(touched)["date" := false]["time" := false]["reason" := false]
        && storage.items == old(storage.items)[FormStorageKey := Json(DraftRecord(Values()))]
        && toaster.shown == old(toaster.shown) + [SchedulePage.ScheduledToast]
      ensures !scheduled ==>
        && Values() == old(Values()) && errors == old(errors) && touched == old(touched)
        && storage.items == old(storage.items)
        && toaster.shown == old(toaster.shown) + [SchedulePage.ScheduleFailedToast, SubmitFailedToast]
    {
      scheduled := page.OnSubmit(data, responseOk);
      if scheduled {
        ResetForm();
      } else {
        toaster.Show(SubmitFailedToast);
      }
    }
  }
}
