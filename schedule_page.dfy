/**
 * app/schedule/page.tsx: the schedule page guards on authentication and supplies the
 * form's `onSubmit`, which turns the chosen day and time into one instant, posts the
 * webhook, and on success removes the stored draft.
 *
 * Instants are milliseconds since 1970-01-01T00:00Z; the user's local zone is taken
 * to be UTC, so `setHours` and friends below are the ECMAScript UTC setters.
 */
module SchedulePage {
  import opened Wrappers
  import opened Text
  import opened Types
  import opened Browser

  const FormStorageKey: string := "schedule_form_data"

  const MsPerSecond: int := 1000
  const MsPerMinute: int := 60000
  const MsPerHour: int := 3600000
  const MsPerDay: int := 86400000
  /** The largest magnitude a JavaScript `Date` holds; beyond it a date is invalid. */
  const MaxTime: int := 8_640_000_000_000_000

  /** What the form submits; `day` is its `yyyy-MM-dd` date as a count of days since 1970-01-01. */
  datatype ScheduleCallData = ScheduleCallData(day: int, time: string, reason: string, name: string, phoneNumber: string)

  /** ECMAScript TimeClip: a time outside the representable range becomes an invalid date. */
  function TimeClip(t: int): (r: Option<int>)
    ensures r.Some? <==> -MaxTime <= t <= MaxTime
    ensures r.Some? ==> r.value == t
  {
    if -MaxTime <= t <= MaxTime then Some(t) else None
  }

  /** `parseISO("yyyy-MM-dd")`: midnight at the start of the day. */
  function ParseIsoDay(day: int): Option<int> {
    TimeClip(day * MsPerDay)
  }

  /** `date.setHours(h)`: the hour of the day is replaced, minutes, seconds and milliseconds stay. */
  function SetHours(t: Option<int>, h: Option<int>): Option<int> {
    if t.None? || h.None? then None
    else
      var u := t.value;
      TimeClip((u / MsPerDay) * MsPerDay + h.value * MsPerHour + u % MsPerHour)
  }

  /** `date.setMinutes(m)`: the minute of the hour is replaced. */
  function SetMinutes(t: Option<int>, m: Option<int>): Option<int> {
    if t.None? || m.None? then None
    else
      var u := t.value;
      TimeClip((u / MsPerHour) * MsPerHour + m.value * MsPerMinute + u % MsPerMinute)
  }

  /** `date.setSeconds(0)`. */
  function SetSecondsZero(t: Option<int>): Option<int> {
    if t.None? then None
    else TimeClip((t.value / MsPerMinute) * MsPerMinute + t.value % MsPerSecond)
  }

  /** `date.setMilliseconds(0)`. */
  function SetMillisecondsZero(t: Option<int>): Option<int> {
    if t.None? then None
    else TimeClip((t.value / MsPerSecond) * MsPerSecond)
  }

  /** `const [hours, minutes] = time.split(":")`, each read by `parseInt(_, 10)`; NaN is `None`. */
  function TimeFields(time: string): (Option<int>, Option<int>) {
    var parts := Split(time, ':');
    // a missing minutes part is `parseInt(undefined, 10)`, which is NaN
    (ParseInt(parts[0]), if |parts| >= 2 then ParseInt(parts[1]) else None)
  }

  /**
   * The page's steps on a parsed date: midnight of the day, then `setHours`, `setMinutes`,
   * `setSeconds(0)` and `setMilliseconds(0)`. `None` is an invalid date.
   */
  function Combine(day: int, hours: Option<int>, minutes: Option<int>): Option<int> {
    SetMillisecondsZero(SetSecondsZero(SetMinutes(SetHours(ParseIsoDay(day), hours), minutes)))
  }

  /** The schedule instant for a submitted day and `time` text; `toISOString` throws on `None`. */
  function ScheduleInstant(day: int, time: string): Option<int> {
    var (hours, minutes) := TimeFields(time);
    Combine(day, hours, minutes)
  }

  predicate InRange(t: int) {
    -MaxTime <= t <= MaxTime
  }

  /**
   * The step-by-step construction is midnight plus the hours and the minutes, with
   * seconds and milliseconds zero; it is invalid exactly when a part is NaN or a step
   * leaves the range of a `Date`.
   */
  lemma CombineIs(day: int, hours: Option<int>, minutes: Option<int>)
    ensures Combine(day, hours, minutes).Some? <==>
      (hours.Some? && minutes.Some?
       && InRange(day * MsPerDay)
       && InRange(day * MsPerDay + hours.value * MsPerHour)
       && InRange(day * MsPerDay + hours.value * MsPerHour + minutes.value * MsPerMinute))
    ensures Combine(day, hours, minutes).Some? ==>
      Combine(day, hours, minutes).value == day * MsPerDay + hours.value * MsPerHour + minutes.value * MsPerMinute
    ensures Combine(day, hours, minutes).Some? ==> Combine(day, hours, minutes).value % MsPerMinute == 0
  {
    var t0 := ParseIsoDay(day);
    if t0.Some? && hours.Some? {
      var u1 := day * MsPerDay + hours.value * MsPerHour;
      SetHoursAtMidnight(day, hours.value);
      var t1 := SetHours(t0, hours);
      if t1.Some? && minutes.Some? {
        var u2 := u1 + minutes.value * MsPerMinute;
        SetMinutesOnTheHour(day, hours.value, minutes.value);
        var t2 := SetMinutes(t1, minutes);
        if t2.Some? {
          ClearSecondsOnTheMinute(day, hours.value, minutes.value);
        }
      }
    }
  }

  lemma SetHoursAtMidnight(day: int, h: int)
    requires InRange(day * MsPerDay)
    ensures SetHours(Some(day * MsPerDay), Some(h)) == TimeClip(day * MsPerDay + h * MsPerHour)
  {
    var u := day * MsPerDay;
    var q, r := u / MsPerDay, u % MsPerDay;
    assert (day - q) * MsPerDay == r;
    assert q == day;
    var q2, r2 := u / MsPerHour, u % MsPerHour;
    assert (day * 24 - q2) * MsPerHour == r2;
    assert r2 == 0;
  }

  lemma SetMinutesOnTheHour(day: int, h: int, m: int)
    requires InRange(day * MsPerDay + h * MsPerHour)
    ensures SetMinutes(Some(day * MsPerDay + h * MsPerHour), Some(m))
         == TimeClip(day * MsPerDay + h * MsPerHour + m * MsPerMinute)
  {
    var u := day * MsPerDay + h * MsPerHour;
    assert u == (day * 24 + h) * MsPerHour;
    assert u / MsPerHour == day * 24 + h;
    assert u == ((day * 24 + h) * 60) * MsPerMinute;
    assert u % MsPerMinute == 0;
  }

  lemma ClearSecondsOnTheMinute(day: int, h: int, m: int)
    requires InRange(day * MsPerDay + h * MsPerHour + m * MsPerMinute)
    ensures var u := day * MsPerDay + h * MsPerHour + m * MsPerMinute;
      SetMillisecondsZero(SetSecondsZero(Some(u))) == Some(u) && u % MsPerMinute == 0
  {
    var u := day * MsPerDay + h * MsPerHour + m * MsPerMinute;
    var k := (day * 24 + h) * 60 + m;
    assert u == k * MsPerMinute;
    assert u / MsPerMinute == k;
    assert u == (k * 60) * MsPerSecond;
    assert u / MsPerSecond == k * 60;
    assert u % MsPerSecond == 0;
  }

  /** The text `HH:MM` splits at its colon into the two-digit hours and minutes. */
  lemma SplitClock(h1: char, h2: char, m1: char, m2: char)
    requires IsDigit(h1) && IsDigit(h2) && IsDigit(m1) && IsDigit(m2)
    ensures Split([h1, h2, ':', m1, m2], ':') == [[h1, h2], [m1, m2]]
  {
    var time := [h1, h2, ':', m1, m2];
    assert time[2] == ':';
    assert IndexOf(time, ':') == 2 by {
      assert IndexOf(time[1..], ':') == 1 by {
        assert time[1..][1..][0] == ':';
      }
    }
    assert ':' !in [m1, m2];
    assert time[3..] == [m1, m2];
    assert time[..2] == [h1, h2];
  }

  /** `HH:MM` reads as two base-10 numbers. */
  lemma TimeFieldsOfClock(h1: char, h2: char, m1: char, m2: char)
    requires IsDigit(h1) && IsDigit(h2) && IsDigit(m1) && IsDigit(m2)
    ensures TimeFields([h1, h2, ':', m1, m2])
         == (Some(10 * DigitValue(h1) + DigitValue(h2)), Some(10 * DigitValue(m1) + DigitValue(m2)))
  {
    SplitClock(h1, h2, m1, m2);
    ParseTwoDigits(h1, h2);
    ParseTwoDigits(m1, m2);
  }

  /** A well-formed `HH:MM` puts the call on the submitted day's midnight plus that many hours and minutes. */
  lemma WellFormedTime(day: int, h1: char, h2: char, m1: char, m2: char)
    requires IsDigit(h1) && IsDigit(h2) && IsDigit(m1) && IsDigit(m2)
    requires 0 <= day < 100000
    ensures var hours := 10 * DigitValue(h1) + DigitValue(h2);
      var minutes := 10 * DigitValue(m1) + DigitValue(m2);
      ScheduleInstant(day, [h1, h2, ':', m1, m2]) == Some(day * MsPerDay + hours * MsPerHour + minutes * MsPerMinute)
  {
    var hours := 10 * DigitValue(h1) + DigitValue(h2);
    var minutes := 10 * DigitValue(m1) + DigitValue(m2);
    TimeFieldsOfClock(h1, h2, m1, m2);
    assert ScheduleInstant(day, [h1, h2, ':', m1, m2]) == Combine(day, Some(hours), Some(minutes));
    CombineIs(day, Some(hours), Some(minutes));
  }

  /** 2025-06-01 (day 20240) at "07:30" is 07:30:00.000 that day, whatever the other fields hold. */
  lemma JuneFirstAtSevenThirty()
    ensures ScheduleInstant(20240, "07:30") == Some(20240 * MsPerDay + 7 * MsPerHour + 30 * MsPerMinute)
  {
    WellFormedTime(20240, '0', '7', '3', '0');
  }

  /** The JSON body posted to the webhook: the form fields, `schedule_time`, `user_id` and `email`. */
  datatype Payload = Payload(
    day: int, time: string, reason: string, name: string, phoneNumber: string,
    scheduleTime: int, userId: Option<string>, email: Option<string>)

  function WebhookBody(data: ScheduleCallData, scheduleTime: int, user: Option<AuthUser>): (p: Payload)
    ensures p.day == data.day && p.time == data.time && p.reason == data.reason
    ensures p.name == data.name && p.phoneNumber == data.phoneNumber
    ensures p.scheduleTime == scheduleTime
    ensures p.userId.Some? <==> user.Some?
    ensures user.Some? ==> p.userId.value == user.value.id && p.email == user.value.email
    ensures user.None? ==> p.email.None?
  {
    Payload(data.day, data.time, data.reason, data.name, data.phoneNumber, scheduleTime,
            if user.Some? then Some(user.value.id) else None,
            if user.Some? then user.value.email else None)
  }

  const ScheduledToast := Toast("Success!", "Your wake-up call has been scheduled successfully.", false)
  const ScheduleFailedToast := Toast("Error", "Failed to schedule wake-up call. Please try again.", true)

  /** Where the page sends the browser: home, once auth has settled without a user. */
  function RedirectTo(authLoading: bool, user: Option<AuthUser>): Option<string> {
    if !authLoading && user.None? then Some("/") else None
  }

  /** The skeleton stands in for the page while auth or the page itself is loading. */
  predicate ShowsSkeleton(authLoading: bool, isLoading: bool) {
    authLoading || isLoading
  }

  /**
   * The page's guard: the form is rendered only to a signed-in user or once the redirect
   * home has been issued; while auth is loading the skeleton shows and nothing redirects;
   * a signed-in user is never redirected.
   */
  lemma AuthGuard(authLoading: bool, isLoading: bool, user: Option<AuthUser>)
    ensures !ShowsSkeleton(authLoading, isLoading) ==> user.Some? || RedirectTo(authLoading, user) == Some("/")
    ensures authLoading ==> ShowsSkeleton(authLoading, isLoading) && RedirectTo(authLoading, user).None?
    ensures user.Some? ==> RedirectTo(authLoading, user).None?
    ensures RedirectTo(authLoading, user).Some? ==> RedirectTo(authLoading, user).value == "/"
  {
  }

  /** The page's state: the session user, and the webhook requests it has sent. */
  class SchedulePage {
    var user: Option<AuthUser>
    var authLoading: bool
    var isLoading: bool
    var sent: seq<Payload>
    const storage: LocalStorage
    const toaster: Toaster

    constructor (user: Option<AuthUser>, authLoading: bool, storage: LocalStorage, toaster: Toaster)
      ensures this.user == user && this.authLoading == authLoading && isLoading
      ensures sent == [] && this.storage == storage && this.toaster == toaster
    {
      this.user := user;
      this.authLoading := authLoading;
      this.isLoading := true;
      this.sent := [];
      this.storage := storage;
      this.toaster := toaster;
    }

    /** Auth settles with its user; the effect depending on `authLoading` runs again. */
    method AuthSettles(u: Option<AuthUser>)
      modifies this`user, this`authLoading
      ensures user == u && !authLoading && isLoading == old(isLoading)
    {
      user := u;
      authLoading := false;
    }

    /**
     * Auth loads again, as `signIn`, `signUp`, `signInWithGoogle` and the sidebar's sign-out
     * do: the user is kept, and the page's `isLoading` stays as it was, so a page that had
     * finished loading shows the skeleton again and does not redirect.
     */
    method AuthStartsLoading()
      modifies this`authLoading
      ensures authLoading && user == old(user) && isLoading == old(isLoading)
      ensures ShowsSkeleton(authLoading, isLoading) && RedirectTo(authLoading, user).None?
    {
      authLoading := true;
    }

    /**
     * `initializePage` finishing: its auth promise resolves only when auth is not loading,
     * so `isLoading` turns false only then.
     */
    method FinishLoading()
      modifies this`isLoading
      ensures isLoading == (old(isLoading) && authLoading)
      ensures user == old(user) && authLoading == old(authLoading)
    {
      if !authLoading {
        isLoading := false;
      }
    }

    /**
     * The `onSubmit` callback. `responseOk` is `response.ok` of the webhook `fetch`.
     * It returns false where the source throws back to the form.
     */
    method OnSubmit(data: ScheduleCallData, responseOk: bool) returns (ok: bool)
      modifies this`sent, storage, toaster
      ensures var t := ScheduleInstant(data.day, data.time);
        && ok == (t.Some? && responseOk)
        && sent == old(sent) + (if t.Some? then [WebhookBody(data, t.value, user)] else [])
      ensures ok ==> toaster.shown == old(toaster.shown) + [ScheduledToast]
      ensures ok ==> storage.items == old(storage.items) - {FormStorageKey}
      ensures !ok ==> toaster.shown == old(toaster.shown) + [ScheduleFailedToast]
      ensures !ok ==> storage.items == old(storage.items)
    {
      var scheduleTime := ScheduleInstant(data.day, data.time);
      ok := Deliver(data, scheduleTime, responseOk);
    }

    /** The rest of `onSubmit` once the instant is computed (`None`: `toISOString` throws). */
    method Deliver(data: ScheduleCallData, scheduleTime: Option<int>, responseOk: bool) returns (ok: bool)
      modifies this`sent, storage, toaster
      ensures ok == (scheduleTime.Some? && responseOk)
      ensures sent == old(sent) + (if scheduleTime.Some? then [WebhookBody(data, scheduleTime.value, user)] else [])
      ensures ok ==> toaster.shown == old(toaster.shown) + [ScheduledToast]
      ensures ok ==> storage.items == old(storage.items) - {FormStorageKey}
      ensures !ok ==> toaster.shown == old(toaster.shown) + [ScheduleFailedToast]
      ensures !ok ==> storage.items == old(storage.items)
    {
      if scheduleTime.None? {
        // the invalid date throws before anything is sent
        toaster.Show(ScheduleFailedToast);
        return false;
      }
      sent := sent + [WebhookBody(data, scheduleTime.value, user)];
      if !responseOk {
        toaster.Show(ScheduleFailedToast);
        return false;
      }
      toaster.Show(ScheduledToast);
      storage.RemoveItem(FormStorageKey);
      ok := true;
    }
  }
}
