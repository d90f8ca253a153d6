# Wake-Up-Coach client core in Dafny

This project models the browser side of Wake-Up-Coach. The app lets a signed-in user
schedule a phone call that wakes them up. The model covers these parts:

- **Scheduling form** (`CallSchedulerForm`). It holds five fields and validates each on blur
  and all of them on submit. It keeps a draft of itself in `localStorage`, restores that
  draft on mount and saves the profile. After a successful submission it resets only the
  scheduling fields.
- **Schedule page** (`SchedulePage`). It redirects and shows a skeleton. It turns the chosen
  day and the `HH:mm` text into one instant, as `parseISO` followed by `setHours`,
  `setMinutes`, `setSeconds` and `setMilliseconds` do. It builds the webhook body and reacts
  to the webhook's answer with a toast and with removing the draft.
- **Stand-alone persistence helper** (`FormPersistence`). It covers save with merge, load and
  clear.
- **Dashboard** (`Dashboard`). It covers the upcoming and past tabs, cancelling and the
  greeting.
- **History page** (`History`). It covers search and status filtering, and the status counts.
- **Call card** (`CallCard`). It covers badge colours, the status label and when the cancel
  button is offered.
- **Country-code phone input** (`PhoneInput`).
- **Sidebar** (`AppSidebar`). It covers the active menu item and the avatar initials.

Supporting modules model values and browser objects:

- `Types` models the shared records.
- `Browser` models `localStorage` and the toast queue as classes.
- `Text`, `Lists` and `Wrappers` hold string functions, filters and `Option`. The string
  functions are ECMAScript `trim`, `split`, `join`, `replace`, `startsWith`, `includes`,
  `parseInt` and upper/lower case.

The clock is never read. Every operation that compares with "now" takes it as a parameter,
in milliseconds since the epoch. A calendar day is a day number `d` whose local midnight is
`d * 86400000`.

Where the written design and the code disagree, the model follows the code:

- The code has no dual write to a database and no reconciler. The scheduling path posts to
  one webhook and keeps nothing else.
- The form does not use `formPersistence` (`lib/form-persistence.ts`). It keeps its own draft
  under `"schedule_form_data"`, and the page removes the draft under that same key.
  `formPersistence` writes `"wake_call_form_data"`, so nothing in the app reads or clears it.
- The draft stores the phone under `phoneNumber`. The error map and the submitted data call
  it `phone_number`.
- The form's phone field is the third-party `react-phone-number-input` widget, not
  `components/ui/phone-input.tsx`. The local component is modelled by itself.

## Model

| member | source | states |
|---|---|---|
| Types.StatusName | types/index.ts:12 | every status has a non-empty wire name that differs from the history filter's "all" |
| Types.StatusNameInjective | types/index.ts:12 | two statuses have the same wire name exactly when they are the same status |
| Browser.LocalStorage.GetItem | lib/form-persistence.ts:24 | `getItem` finds an entry exactly when the key is stored, and returns that entry |
| Browser.LocalStorage.SetItem | lib/form-persistence.ts:16 | `setItem` replaces the entry under its key and leaves every other key alone |
| Browser.LocalStorage.RemoveItem | lib/form-persistence.ts:34 | `removeItem` drops exactly that key |
| Browser.Toaster.Show | app/schedule/page.tsx:108-112 | a toast is appended to those already shown |
| FormPersistence.Decode | lib/form-persistence.ts:22-30 | a missing or unparsable stored value loads as `{}`, a parsable one as its own fields |
| FormPersistence.Loaded | lib/form-persistence.ts:22-30 | what `load` returns for a storage state, that is `Decode` of its own key; specified by `Load`, `SaveThenLoad` and `ClearThenLoad` |
| FormPersistence.AfterSave | lib/form-persistence.ts:12-20 | the storage after `save`: its own key set to the merge of `load` and the data; specified by `SaveThenLoad`, `SaveIdempotent` and `OnlyOwnKey` |
| FormPersistence.AfterClear | lib/form-persistence.ts:32-38 | the storage after `clear`: its own key removed; specified by `ClearThenLoad` and `OnlyOwnKey` |
| FormPersistence.Merge | lib/form-persistence.ts:15 | the stored result of the spread: a field passed with a value wins, a field passed as `undefined` is dropped by `JSON.stringify`, and every field not passed keeps its stored value |
| FormPersistence.Load | lib/form-persistence.ts:22-30 | `load` returns `{}` when nothing is stored or the stored text does not parse, and otherwise the stored record |
| FormPersistence.Save | lib/form-persistence.ts:12-20 | `save` rewrites only its own key, with the stored record merged with the new data, `undefined` fields removed |
| FormPersistence.Clear | lib/form-persistence.ts:32-38 | `clear` removes only its own key |
| FormPersistence.SaveThenLoad | lib/form-persistence.ts:12-30 | loading after a save gives the earlier draft merged with the saved fields: a saved value is read back, a field saved as `undefined` is gone, and fields not saved keep their earlier value |
| FormPersistence.SaveUndefinedDeletes | lib/form-persistence.ts:12-16 | `save({date: undefined})` deletes the stored date and keeps every other stored field |
| FormPersistence.ClearThenLoad | lib/form-persistence.ts:22-38 | loading after a clear gives `{}` |
| FormPersistence.SaveIdempotent | lib/form-persistence.ts:12-20 | saving the same data twice leaves the storage as one save does |
| FormPersistence.OnlyOwnKey | lib/form-persistence.ts:1 | save and clear never change any other `localStorage` key |
| SchedulePage.TimeClip | app/schedule/page.tsx:83-86 | a `Date` keeps its value only within ±8.64e15 ms and becomes invalid beyond that |
| SchedulePage.ParseIsoDay | app/schedule/page.tsx:81 | `parseISO` of a `yyyy-MM-dd` day: its local midnight, clipped to the `Date` range |
| SchedulePage.SetHours | app/schedule/page.tsx:83 | `setHours`: the hour of the day replaced and minutes, seconds and milliseconds kept, invalid on NaN or out of range; specified by `SetHoursAtMidnight` |
| SchedulePage.SetMinutes | app/schedule/page.tsx:84 | `setMinutes`: the minute of the hour replaced, invalid on NaN or out of range; specified by `SetMinutesOnTheHour` |
| SchedulePage.SetSecondsZero | app/schedule/page.tsx:85 | `setSeconds(0)`; specified by `ClearSecondsOnTheMinute` |
| SchedulePage.SetMillisecondsZero | app/schedule/page.tsx:86 | `setMilliseconds(0)`; specified by `ClearSecondsOnTheMinute` |
| SchedulePage.TimeFields | app/schedule/page.tsx:82-84 | `time.split(":")` read by `parseInt(_, 10)`, with a missing part as NaN; specified by `TimeFieldsOfClock` |
| SchedulePage.Combine | app/schedule/page.tsx:81-86 | the four setters applied to the parsed day; specified by `CombineIs` |
| SchedulePage.ScheduleInstant | app/schedule/page.tsx:81-88 | the instant sent as `schedule_time`, or none when `toISOString` would throw; specified by `CombineIs` and `WellFormedTime` |
| SchedulePage.CombineIs | app/schedule/page.tsx:81-88 | the setter chain gives a valid date exactly when both numbers parsed and every step stays in range; the result is midnight plus the hours and minutes, on a whole minute |
| SchedulePage.SetHoursAtMidnight | app/schedule/page.tsx:83 | `setHours(h)` on a midnight adds `h` hours, carrying into the following days |
| SchedulePage.SetMinutesOnTheHour | app/schedule/page.tsx:84 | `setMinutes(m)` on a whole hour adds `m` minutes |
| SchedulePage.ClearSecondsOnTheMinute | app/schedule/page.tsx:85-86 | clearing seconds and milliseconds leaves an instant on a whole minute unchanged |
| SchedulePage.SplitClock | app/schedule/page.tsx:82 | `"HH:mm".split(":")` gives the hour text and the minute text |
| SchedulePage.TimeFieldsOfClock | app/schedule/page.tsx:82-84 | both parts of a two-digit clock text parse, base 10, to their decimal values |
| SchedulePage.WellFormedTime | app/schedule/page.tsx:81-88 | a day and a `HH:mm` text give the instant day × 86400000 + HH hours + mm minutes |
| SchedulePage.JuneFirstAtSevenThirty | app/schedule/page.tsx:81-88 | "07:30" on day 20240 gives 07:30 of that day |
| SchedulePage.WebhookBody | app/schedule/page.tsx:95-100 | the posted body carries every submitted field, the computed `schedule_time`, and the user's id and email when signed in, and no user id or email when signed out |
| SchedulePage.RedirectTo | app/schedule/page.tsx:51-55 | the redirect effect's target: "/" once auth has settled with no user; specified by `AuthGuard` |
| SchedulePage.ShowsSkeleton | app/schedule/page.tsx:57-59 | the early return of the skeleton while auth or the page is loading; specified by `AuthGuard` |
| SchedulePage.AuthGuard | app/schedule/page.tsx:51-59 | the form is rendered only to a signed-in user or once the redirect to "/" is issued; while auth loads the skeleton shows and nothing redirects; a signed-in user is never redirected |
| SchedulePage.SchedulePage.constructor | app/schedule/page.tsx:18-22 | the page starts loading with nothing posted |
| SchedulePage.SchedulePage.AuthSettles | app/schedule/page.tsx:18-19 | auth settles with its user; the page's own `isLoading` is unchanged |
| SchedulePage.SchedulePage.AuthStartsLoading | components/app-sidebar.tsx:54-56 | auth loads again, as after the sidebar's sign-out; the user and `isLoading` are kept, and the page shows the skeleton again without redirecting |
| SchedulePage.SchedulePage.FinishLoading | app/schedule/page.tsx:24-48 | `initializePage` clears `isLoading` only when auth is not loading, in any state, including after auth has started loading again |
| SchedulePage.SchedulePage.OnSubmit | app/schedule/page.tsx:78-126 | it posts exactly when the instant is valid. It succeeds exactly when the post was also answered ok. On success it shows the success toast and removes the draft. On failure it shows the error toast and leaves storage alone |
| SchedulePage.SchedulePage.Deliver | app/schedule/page.tsx:88-125 | the same effects, given the computed instant or its absence (`toISOString` throwing) |
| CallSchedulerForm.FieldNamed | app/schedule/components/call-scheduler-form.tsx:143-173 | a string is recognised as a field only when it is that field's key |
| CallSchedulerForm.KeyRoundTrip | app/schedule/components/call-scheduler-form.tsx:197 | each of the five fields is recognised by its own key |
| CallSchedulerForm.ValueOf | app/schedule/components/call-scheduler-form.tsx:178-187 | the date field is read as a date and every other field as text |
| CallSchedulerForm.Check | app/schedule/components/call-scheduler-form.tsx:143-174 | `validateField`'s switch for a known field, with its exact messages; specified by `CheckRules`, `OnlyIdentityErrors` and `PastDateRejected` |
| CallSchedulerForm.CheckRules | app/schedule/components/call-scheduler-form.tsx:143-174 | name fails exactly when its trimmed length is under 2 and reason under 5; phone and time fail exactly when blank after trimming; the date fails exactly when it is missing or earlier than now |
| CallSchedulerForm.ValidateField | app/schedule/components/call-scheduler-form.tsx:171-172 | an unknown field name never has an error |
| CallSchedulerForm.ErrorsOf | app/schedule/components/call-scheduler-form.tsx:198-214 | the error map after `forEach` has visited a prefix of the fields; specified by `ErrorsOfKeys` |
| CallSchedulerForm.FormErrors | app/schedule/components/call-scheduler-form.tsx:192-218 | the error map `validateForm` sets; specified by `FormErrorsExact` and `BlurAgreesWithSubmit` |
| CallSchedulerForm.ErrorsOfKeys | app/schedule/components/call-scheduler-form.tsx:198-214 | after any prefix of the fields, the error map holds exactly the visited failing fields, each with its own message |
| CallSchedulerForm.FormErrorsExact | app/schedule/components/call-scheduler-form.tsx:192-218 | a field's key is in the error map exactly when that field fails, so the form is valid exactly when no field fails |
| CallSchedulerForm.BlurAgreesWithSubmit | app/schedule/components/call-scheduler-form.tsx:176-218 | blurring a field reports the same error, with the same message, as submitting reports for it |
| CallSchedulerForm.ValidHasDate | app/schedule/components/call-scheduler-form.tsx:232-262 | a form that passes validation has a date no earlier than now, a name of 2+ and a reason of 5+ trimmed characters, and non-blank phone and time; this is what makes `date!` safe |
| CallSchedulerForm.OnlyIdentityErrors | app/schedule/components/call-scheduler-form.tsx:145-154 | with the scheduling fields filled and no profile, exactly the name and phone errors appear, with their messages |
| CallSchedulerForm.PastDateRejected | app/schedule/components/call-scheduler-form.tsx:156-159 | a date earlier than now is reported as "Please select a future date" |
| CallSchedulerForm.DraftRecord | app/schedule/components/call-scheduler-form.tsx:101-110 | the saved draft always holds time, reason, name and phoneNumber, and a date only when one is picked |
| CallSchedulerForm.Restore | app/schedule/components/call-scheduler-form.tsx:84-98 | a missing or unparsable draft leaves every field as it was |
| CallSchedulerForm.TextAt | app/schedule/components/call-scheduler-form.tsx:90-93 | a stored text field, or "" when it is absent or not text |
| CallSchedulerForm.DateAt | app/schedule/components/call-scheduler-form.tsx:89 | the stored date when it is an instant |
| CallSchedulerForm.RestoreDraft | app/schedule/components/call-scheduler-form.tsx:84-110 | restoring a saved draft on a fresh form gives back the saved values |
| CallSchedulerForm.RestoreThenSaveIdempotent | app/schedule/components/call-scheduler-form.tsx:84-110 | the save that follows a restore writes the same draft again |
| CallSchedulerForm.AfterReset | app/schedule/components/call-scheduler-form.tsx:112-116 | reset clears date, time and reason and keeps name and phone |
| CallSchedulerForm.ReloadAfterSuccess | app/schedule/components/call-scheduler-form.tsx:112-141 | after a successful submission the page removes the draft and reset writes a new one, so a reload restores name and phone with empty scheduling fields |
| CallSchedulerForm.UnreadableDate | app/schedule/components/call-scheduler-form.tsx:89 | a date stored as non-ISO text, which the model counts as an Invalid Date for `new Date` |
| CallSchedulerForm.MountAsWritten | app/schedule/components/call-scheduler-form.tsx:84-110 | mounting as the effects run it: a crash in the next render's `format(date, "PPP")` (line 360), leaving the blank draft, when the date is stored as non-ISO text, otherwise the restored values and their draft |
| CallSchedulerForm.MountCorrected | app/schedule/components/call-scheduler-form.tsx:84-110 | mounting with an unreadable date ignored: the restored values and their draft |
| CallSchedulerForm.UnreadableDateCrashesMount | app/schedule/components/call-scheduler-form.tsx:84-110 | as written, a draft with an unreadable date crashes the form and leaves a draft that restores nothing |
| CallSchedulerForm.MountKeepsReadableFields | app/schedule/components/call-scheduler-form.tsx:84-110 | corrected, mounting never crashes, shows every readable stored text field, drops an unreadable date, and stores a draft that restores what is shown |
| CallSchedulerForm.SubmittedData | app/schedule/components/call-scheduler-form.tsx:261-267 | the submitted day is the calendar day that contains the picked date, and the other fields pass through unchanged |
| CallSchedulerForm.Warned | app/schedule/components/call-scheduler-form.tsx:250-258 | the profile warning is shown, at most once, exactly when the profile upsert reported an error |
| CallSchedulerForm.SchedulerForm.constructor | app/schedule/components/call-scheduler-form.tsx:51-110 | a new form starts blank and restores the stored draft, as `MountCorrected` does; the save effect then writes the restored values back under the form's key |
| CallSchedulerForm.SchedulerForm.LoadDraft | app/schedule/components/call-scheduler-form.tsx:84-98 | each truthy stored field replaces the current one, and nothing else changes |
| CallSchedulerForm.SchedulerForm.SaveDraft | app/schedule/components/call-scheduler-form.tsx:100-110 | the save effect leaves the stored draft equal to the current values and touches no other key |
| CallSchedulerForm.SchedulerForm.Edit | app/schedule/components/call-scheduler-form.tsx:100-110 | after the user edits fields, the stored draft mirrors the new values |
| CallSchedulerForm.SchedulerForm.ApplyProfile | app/schedule/components/call-scheduler-form.tsx:70-73 | a loaded profile sets name and phone, with missing values taken as "", and the draft follows |
| CallSchedulerForm.SchedulerForm.HandleBlur | app/schedule/components/call-scheduler-form.tsx:176-190 | the field becomes touched, and its error is set to the field's message or cleared |
| CallSchedulerForm.SchedulerForm.ValidateForm | app/schedule/components/call-scheduler-form.tsx:192-218 | the loop leaves exactly `FormErrors` of the current values, and reports valid exactly when that map is empty |
| CallSchedulerForm.SchedulerForm.ResetForm | app/schedule/components/call-scheduler-form.tsx:112-141 | the scheduling fields are cleared, along with their errors and touched flags, and the draft is rewritten with name and phone kept |
| CallSchedulerForm.SchedulerForm.HandleSubmit | app/schedule/components/call-scheduler-form.tsx:220-281 | every field becomes touched and the errors are those of the submitted values. An invalid form changes nothing else, and the spinner flag keeps its value. A valid form sends the draft's day and time to the page: on success the scheduling fields are reset and the success toast is shown; on failure the values are kept and both error toasts are shown |
| CallSchedulerForm.SchedulerForm.Submit | app/schedule/components/call-scheduler-form.tsx:236-281 | the warning toast comes first when the profile upsert failed; then `onSubmit` runs, then either the reset or the form's error toast; `isSubmitting` always ends false |
| CallSchedulerForm.SchedulerForm.Schedule | app/schedule/components/call-scheduler-form.tsx:261-277 | `onSubmit` succeeds exactly when the instant is valid and the webhook answers ok. Success resets the scheduling fields and rewrites the draft. Failure keeps every value and adds the form's error toast after the page's |
| CallCard.StatusColors | components/call-card.tsx:16-28 | each of the four named statuses gets its own colour. Every other status, cancelled included, gets gray. The five colours differ |
| CallCard.StatusColor | components/call-card.tsx:16-28 | `getStatusColor`'s switch on the status string; specified by `StatusColors` |
| CallCard.StatusLabel | components/call-card.tsx:43 | `charAt(0).toUpperCase() + slice(1)`; specified by `StatusLabelSpec` and `StatusLabels` |
| CallCard.StatusLabelSpec | components/call-card.tsx:43 | the badge text is the status with its first character upper-cased and the rest unchanged, so it equals the status case-insensitively |
| CallCard.StatusLabels | components/call-card.tsx:43 | the five statuses are labelled "Scheduled", "Completed", "Failed", "Missed" and "Cancelled" |
| CallCard.CancelRequest | components/call-card.tsx:65-70 | the ids the cancel button hands to `onCancel`: the call's id when the button is rendered, none otherwise; specified by `Dashboard.CancelButtonRemovesCard` and `History.SearchHitShowsReason` |
| CallCard.IsUpcoming | components/call-card.tsx:31-32 | the card's `isUpcoming`: the call is scheduled after now |
| CallCard.ShowsCancel | components/call-card.tsx:65 | the cancel button's condition: upcoming, status "scheduled", and a handler passed; used by `CancelRequest` and `Dashboard.CancelOnlyOnUpcoming` |
| CallCard.ReasonLine | components/call-card.tsx:58-63 | the "Reason:" line, rendered with the reason when it is non-empty; specified by `History.SearchHitShowsReason` |
| Dashboard.UpcomingCalls | app/dashboard/page.tsx:62 | the upcoming tab holds exactly the future scheduled calls, in their original order |
| Dashboard.PastCalls | app/dashboard/page.tsx:63 | the past tab holds exactly the calls that are due or no longer scheduled, in their original order |
| Dashboard.IsUpcoming | app/dashboard/page.tsx:62 | the upcoming filter's test: scheduled after now and status "scheduled" |
| Dashboard.IsPast | app/dashboard/page.tsx:63 | the past filter's test: due by now or status not "scheduled"; the negation of `IsUpcoming`, which `TabsPartition` uses |
| Dashboard.TabsPartition | app/dashboard/page.tsx:62-63 | every call whose `scheduled_at` parses is on exactly one tab: the lengths and multisets of the two tabs add up to the whole list |
| Dashboard.CancelOnlyOnUpcoming | app/dashboard/page.tsx:62-63 | every upcoming card offers cancel, and no past card does |
| Dashboard.WithoutId | app/dashboard/page.tsx:65-67 | cancelling keeps exactly the calls with other ids, in order |
| Dashboard.CancelUnknownId | app/dashboard/page.tsx:65-67 | cancelling an id that is not listed changes nothing |
| Dashboard.CancelRemovesCard | app/dashboard/page.tsx:65-67 | a cancelled upcoming call leaves the upcoming tab, every other upcoming call stays, and the list shrinks |
| Dashboard.CancelButtonRemovesCard | app/dashboard/page.tsx:65-67 | an upcoming card's cancel button passes its id, and `handleCancelCall` with that id takes the card off the upcoming tab and keeps every other upcoming card; past cards have no cancel button |
| Dashboard.WelcomeName | app/dashboard/page.tsx:84 | the greeting is never empty. It is the metadata name when that is non-empty; otherwise the text before the first "@" of the email when that is non-empty; otherwise "User" |
| Dashboard.WelcomeFromEmail | app/dashboard/page.tsx:84 | a user with no name whose email is `local@domain`, with a non-empty local part, is greeted as the local part |
| Dashboard.MockCallsAllPast | app/dashboard/page.tsx:19-47 | from 07:00 UTC on 15 January 2024 onward, all three sample calls are on the past tab |
| Dashboard.DashboardPage.constructor | app/dashboard/page.tsx:58 | the page starts with the three sample calls |
| Dashboard.DashboardPage.HandleCancelCall | app/dashboard/page.tsx:65-67 | the list becomes the calls whose id differs |
| History.FilteredCalls | app/history/page.tsx:70-74 | the shown calls are exactly those whose reason contains the search term, ignoring case, and whose status matches the filter unless it is "all", in their original order |
| History.Matches | app/history/page.tsx:71-73 | the filter's test: the lower-cased reason contains the lower-cased term, and the filter is "all" or the status; specified by `FilteredCalls`, `NoFilterShowsAll` and `StatusFilterExact` |
| History.NoFilterShowsAll | app/history/page.tsx:67-74 | with the initial empty search and "all", every call is shown |
| History.StatusFilterExact | app/history/page.tsx:72 | filtering by a status shows only calls with that status |
| History.StatusCountsSum | app/history/page.tsx:76-83 | the per-status counts add up to the number of calls |
| History.CountStatus | app/history/page.tsx:78-80 | the number of calls with one status (`filter(...).length`); specified by `StatusCountsSum` |
| History.GetStatusStats | app/history/page.tsx:76-83 | `getStatusStats`: the total and the completed, failed and missed counts; specified by `StatsBounded` |
| History.StatsBounded | app/history/page.tsx:76-83 | total is the number of calls, and completed + failed + missed never exceeds it |
| History.SearchHitShowsReason | app/history/page.tsx:70-74 | every call found by a non-empty search shows its "Reason:" line, that line contains the search term ignoring case, and the card, rendered without `onCancel`, has no cancel button |
| PhoneInput.CodeShape | components/ui/phone-input.tsx:27-43 | every code is "+" and one or two digits; only +1 and +7 are short |
| PhoneInput.IndexOfCodeInverts | components/ui/phone-input.tsx:27-43 | no two countries share a code |
| PhoneInput.CodesPrefixFree | components/ui/phone-input.tsx:27-43 | no country's code is a prefix of another's, so at most one code matches a value |
| PhoneInput.FindByPrefix | components/ui/phone-input.tsx:70 | `find` returns a listed country whose code starts the value, or nothing when none does |
| PhoneInput.FindListed | components/ui/phone-input.tsx:70 | a value that starts with a listed code finds that country |
| PhoneInput.CodeOf | components/ui/phone-input.tsx:69-71 | the parsed code is the code of the first listed country that starts the value, and the selected country's code when none does |
| PhoneInput.SplitValue | components/ui/phone-input.tsx:68-74 | the `useMemo` pair: the parsed code and the value with that code's first occurrence removed, trimmed; specified by `SplitRoundTrip` |
| PhoneInput.SplitRoundTrip | components/ui/phone-input.tsx:68-74 | a listed code followed by a trimmed number splits back into that code and number, whatever country is selected |
| PhoneInput.TypedValue | components/ui/phone-input.tsx:83-86 | what typing emits as written: the selected code followed by the digits of the input |
| PhoneInput.TypedValueKeepingCode | components/ui/phone-input.tsx:83-86 | the corrected value on typing: the code parsed from the value followed by the digits of the input |
| PhoneInput.TypingReplacesParsedCode | components/ui/phone-input.tsx:62-86 | with the default selection, a value that carries another listed code parses as that code, yet typing into it emits a "+1" number |
| PhoneInput.TypingKeepsCountry | components/ui/phone-input.tsx:68-86 | the corrected typing handler keeps the code parsed from the value and replaces the number with the typed digits |
| PhoneInput.SelectKeepsNumber | components/ui/phone-input.tsx:68-79 | the parsed number, put after a newly picked code, parses back as that code and the same number |
| PhoneInput.PhoneInputState.constructor | components/ui/phone-input.tsx:62-65 | the picker starts closed with the first country, +1, selected |
| PhoneInput.PhoneInputState.Parsed | components/ui/phone-input.tsx:68-74 | the `useMemo` pair for the current selection |
| PhoneInput.PhoneInputState.HandleCountrySelect | components/ui/phone-input.tsx:76-81 | picking a country selects it, closes the list and emits its code followed by the parsed number, which then parses as that pair |
| PhoneInput.PhoneInputState.HandlePhoneNumberChange | components/ui/phone-input.tsx:83-86 | typing emits the selected code followed by the typed digits only, which parses as that code and those digits |
| AppSidebar.AtMostOneActive | components/app-sidebar.tsx:25-46 | at most one menu item is highlighted for any path |
| AppSidebar.IsActive | components/app-sidebar.tsx:99 | a menu item is highlighted when the path equals its url |
| AppSidebar.GetUserInitials | components/app-sidebar.tsx:70-82 | `getUserInitials`; specified by `InitialsSpec` and `TwoWordName` |
| AppSidebar.FirstChars | components/app-sidebar.tsx:74-75 | `map((n) => n[0]).join("")`, with an empty word giving nothing; specified by `FirstCharsOfSplit` |
| AppSidebar.InitialsSpec | components/app-sidebar.tsx:70-82 | a non-empty name gives the upper-cased first letter of each space-separated word. Without one, a non-empty email gives its first two characters upper-cased. Otherwise the result is "U" |
| AppSidebar.FirstCharsOfSplit | components/app-sidebar.tsx:72-75 | joining the first characters of the space-split words equals taking each character that starts a word |
| AppSidebar.TwoWordName | components/app-sidebar.tsx:70-77 | "Jane Doe" style names give two upper-cased letters |

## Left out

- Time zones. The local zone is taken as UTC, so local midnight is `day * 86400000` and no daylight-saving shifts occur. Formatting dates as text (`format`, `toISOString`, the cards' "PPP"/"p") is not modelled. A stored ISO date is taken as its instant.
- `History` and `Dashboard` take `scheduled_at` as an instant. A text that does not parse gives `Invalid Date`, which fails both `> now` and `<= now`, so in the source such a call is on neither dashboard tab. The tab partition (`Dashboard.TabsPartition`) holds only for timestamps that parse.
- UTF-16 is modelled only for the length checks (`Utf16Length`). `n[0]`, `charAt`, `substring` and `slice` index code points, not code units.
- Upper and lower case map ASCII letters only. Full Unicode case mapping is not modelled.
- `fetch`, the webhook URL and the response are reduced to one `responseOk` parameter. The minimum 800 ms loading timer is not modelled: `FinishLoading` may run whenever auth is not loading.
- The profile read (`userProfile.getProfile`) and the upsert are reduced to their outcomes, which are `ApplyProfile`'s arguments and `ProfileStep`. A throwing `getCurrentUser` is not modelled, because the client library returns errors as values.
- React's asynchronous interleaving is not modelled. Each handler runs to completion. The profile load and the draft restore are separate steps whose order is up to the caller.
- Storage quota errors from `setItem` are not modelled. `JSON.parse` failures, and parsed values that are not objects, are the `Malformed` entry.
- CallSchedulerForm.SchedulerForm.constructor: a draft whose `date` is non-empty text that `new Date` cannot read is restored without a date. The source sets an Invalid Date there. The first commit's save effect has already stored the blank values; the next render then throws in `format(date, "PPP")` on the date button (call-scheduler-form.tsx:360), before that commit's effects run, so the form crashes and the draft's other fields are lost. The constructor follows the corrected `MountCorrected`; the source's behaviour is `MountAsWritten` (see Findings).
- The phone widget's own number validation is not modelled. It is the third-party `react-phone-number-input`, which is not part of this model.
- JSX layout, styles, icons, the theme switch, `StatsCards` and the dashboard's `mockStats` are left out. They compute nothing the pages depend on.
- The sidebar's `handleLogout` is modelled only by its effect on the page: `signOut` sets auth loading (`SchedulePage.SchedulePage.AuthStartsLoading`), which brings the schedule page's skeleton back. The Supabase sign-out call and the navigation after it are not modelled.
- CallSchedulerForm.SchedulerForm.HandleBlur: a cleared error is removed from the map. The source sets it to `undefined`, which renders the same.
- CallSchedulerForm.SchedulerForm.ResetForm: the date, time and reason errors are removed from the map. The source sets them to `undefined` (call-scheduler-form.tsx:119-124), which renders the same.
- CallSchedulerForm.UnreadableDate: a stored field is either text or an instant, fixed by the stored record rather than by what `new Date` reads. Every date stored as non-empty text counts as unreadable, although an engine's fallback parser reads some such texts (V8 reads "June 1, 2025"), and for those the source restores the date. A text field whose stored string would read as an ISO date is held as text, and non-string field values such as `{"name": 5}` are not modelled.
- SchedulePage.SchedulePage.OnSubmit: the rethrown error is modelled as the `false` result that the form's `Submit` handles.

## Findings

| source | as written | input that shows it | evidently intended | confidence | as-written member | corrected member |
|---|---|---|---|---|---|---|
| components/ui/phone-input.tsx:62-86 | typing builds the new value from `selectedCountry.code`. That code starts as +1 and is never synced with the code parsed from `value`, so the button and the typed value both use +1 while the value carries +44 | value "+447700900123" with the default selection parses as +44 and 7700900123, and the button shows +1; typing one more digit emits "+177009001234" | typing keeps the code parsed from the value | medium, not executed | PhoneInput.TypingReplacesParsedCode | PhoneInput.TypingKeepsCountry |
| app/schedule/components/call-scheduler-form.tsx:84-110 | a date stored as non-ISO text, which `new Date` cannot read, becomes an Invalid Date, a truthy object. The first commit's save effect has already stored the blank initial values; the next render evaluates `format(date, "PPP")` (line 360), which throws before that commit's effects run, so the form crashes and the draft keeps none of its fields | a draft `{"date": "x", "name": "Jane", "phoneNumber": "+15550100"}` | a draft date stored as non-ISO text is ignored and the other fields are restored without a crash | medium, not executed | CallSchedulerForm.UnreadableDateCrashesMount | CallSchedulerForm.MountKeepsReadableFields |
