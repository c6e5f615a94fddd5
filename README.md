# PaddleHub front-end booking rules, modelled in Dafny

PaddleHub is a React front-end for booking padel courts. Its own logic sits
in five components, and this project models that logic:

- the booking and reschedule modals: their form validators, their
  half-hour slot lists and their form state;
- the bookings page: its 12-hour time display, its upcoming test, its tab
  filter and counts, when it offers the Reschedule and Cancel actions, and
  its cancel and reschedule handlers;
- the admin dashboard: the per-status court tallies and the create/edit
  court form;
- the navigation bar: its role-based links and its greeting.

Times are the zero-padded "HH:MM" strings of the forms. They are compared
with JavaScript's string order (`Text.Less`), and `Clock.LessIsEarlier`
proves that for well-formed times this order is the order of the minutes
of the day. A date is what `new Date(text)` makes of a "YYYY-MM-DD" text,
kept as an order-preserving day key (`Clock.ParseDay`); an Invalid Date is
`None`, and every comparison against it is false. "Today" is a day key
that the caller passes in.

Component state is a Dafny class per component. Each class has the fields
the component keeps with `useState`, and each handler is a method. The
HTTP client is not modelled. Each component logs the requests it sends in
a `requests` field, and the outcome of an awaited request is a parameter
of the handler. A callback that a modal makes to its parent is logged in
`callbacks`. The user's answer to `window.confirm` is a boolean parameter.
A field that the server leaves out of a record is "", the only value the
code ever tests such a field against.

Files: `optional.dfy` (Option), `text.dfy` (string order, decimal text,
`padStart`, `split(sep)[0]`), `clock.dfy` (times, slots, days),
`api.dfy` (records, requests, outcomes), `form_rules.dfy` (what both
modals share), then one file per component.

## Model

| member | source | states |
|---|---|---|
| Text.Less | src/components/BookingModal.jsx:53-60 | JavaScript's `<` on strings: character by character, a proper prefix coming first |
| Text.LessTrichotomy | src/components/BookingModal.jsx:53 | JavaScript's string order is a strict total order, so `startTime >= endTime` is exactly "not `startTime < endTime`", and a slot that ends when it starts is never ordered |
| Text.NatToString | src/components/BookingModal.jsx:104 | `hour.toString()` is a non-empty run of decimal digits with no leading zero |
| Text.DigitsValueOfNatToString | src/pages/BookingsPage.jsx:119 | `parseInt` of a number's decimal text gives back the number |
| Text.PadStart | src/components/BookingModal.jsx:104 | `padStart` keeps the text as a suffix, fills only in front, and reaches the requested width |
| Text.SmallNatToString | src/components/BookingModal.jsx:104 | `toString` of a number below 100 is one digit below ten, and its tens then units digit otherwise |
| Text.TwoDigitText | src/components/BookingModal.jsx:104 | zero-padding an hour below 100 to two characters gives its tens digit then its units digit |
| Text.BeforeFirst | src/components/Navbar.jsx:76 | `split(sep)[0]` is a prefix of the text free of `sep`, followed by `sep` when it stops short of the end |
| Clock.LessIsEarlier | src/components/BookingModal.jsx:50-62 | for well-formed "HH:MM" times, the string comparison the validators use agrees with the minutes of the day |
| Clock.TimeString | src/components/BookingModal.jsx:104 | a slot's text: the hour zero-padded to two digits, ":", then the minute text (characters stated by `Clock.TimeStringChars`) |
| Clock.TimeStringChars | src/components/BookingModal.jsx:104 | for an hour below 100, the slot text is the hour's tens digit, its units digit, ":" and the minute text |
| Clock.SlotChars | src/components/BookingModal.jsx:104 | a slot text is the two digits of its hour, a colon, then "00" or "30" |
| Clock.SlotTextIsTime | src/components/BookingModal.jsx:104 | each generated slot text is a well-formed time, on the hour or half past it |
| Clock.AppendSlot | src/components/BookingModal.jsx:103-105 | each round of the inner loop appends exactly the next slot of the list |
| Clock.SlotIsTime | src/components/BookingModal.jsx:100-109 | slot `i` is the time 30 * i minutes after six in the morning |
| Clock.SlotsAscending | src/components/BookingModal.jsx:100-109 | the slots are strictly increasing in the string order the forms use |
| Clock.SlotEnds | src/components/BookingModal.jsx:102 | the first slot is "06:00" and the last "23:30" |
| Clock.TimeOptionsShape | src/components/BookingModal.jsx:100-109 | the slot list has 36 well-formed times from "06:00" to "23:30", half an hour apart, strictly increasing |
| Clock.ParseDay | src/components/BookingModal.jsx:42 | `new Date(text)` of a "YYYY-MM-DD" text, alone or followed by a "T" time part, gives that text's day, as an order-preserving day key |
| Clock.DayKeyOrdersDays | src/components/BookingModal.jsx:42-46 | the day key orders days as the calendar does: by year, then month, then day of the month |
| Clock.IsPast | src/components/BookingModal.jsx:42-46 | `new Date(date) < today`: the day is before today; never for a date `new Date` cannot read |
| Clock.DatePart | src/components/RescheduleModal.jsx:17 | `split("T")[0]` is a prefix of the text with no "T" in it, followed by "T" when it stops short of the end |
| Clock.DatePartSameDay | src/components/RescheduleModal.jsx:17 | the date part of a server date is its first ten characters and denotes the same day |
| Api.FailureMessage | src/components/BookingModal.jsx:94 | the error shown after a failed request is the server's message whenever that is non-empty, and the fallback otherwise; so it is never empty |
| FormRules.Form.Set | src/components/BookingModal.jsx:28-35 | a change event sets the named field and leaves the other two as they were |
| FormRules.FirstFailure | src/components/BookingModal.jsx:37-65 | a guard chain passes iff every guard holds, and otherwise returns the message of the first guard that fails, all earlier ones holding |
| FormRules.Form.Complete | src/components/BookingModal.jsx:38 | the first guard: date, start time and end time are all non-empty |
| FormRules.HoursMessage | src/components/BookingModal.jsx:61 | the hours guard's message: "Booking must be within operating hours: " then the opening bound, " - " and the closing bound |
| FormRules.WithinHours | src/components/BookingModal.jsx:60 | the hours guard: start not before the opening bound and end not after the closing bound, in string order (in minutes by `FormRules.WithinHoursByMinutes`) |
| FormRules.Opening | src/components/BookingModal.jsx:57 | the opening bound is the court's opening hour, or 08:00 when the court has none |
| FormRules.Closing | src/components/BookingModal.jsx:58 | the closing bound is the court's closing hour, or 22:00 when the court has none |
| FormRules.WithinHoursByMinutes | src/components/BookingModal.jsx:60-62 | for well-formed times the hours guard is opening <= start and end <= closing in minutes, both bounds inclusive |
| BookingModal.Guards | src/components/BookingModal.jsx:37-62 | the booking validator's four guards in source order, each with its message: fields given, date not past, start before end, within the court's hours |
| BookingModal.ValidateForm | src/components/BookingModal.jsx:37-65 | the validator returns the message of the first failing guard among: all fields given, date not past, start before end, within hours; None when all hold |
| BookingModal.MissingFieldFirst | src/components/BookingModal.jsx:37-40 | an empty field yields "All fields are required" whatever else is wrong |
| BookingModal.PastMeansBeforeToday | src/components/BookingModal.jsx:42-48 | the past-date message appears iff the day is before today; today itself passes |
| BookingModal.EmptyIntervalRefused | src/components/BookingModal.jsx:50-55 | a zero-length slot is refused with "End time must be after start time" |
| BookingModal.WholeDayAccepted | src/components/BookingModal.jsx:57-62 | a slot from exactly the opening hour to exactly the closing hour is accepted |
| BookingModal.ValidateFormByMinutes | src/components/BookingModal.jsx:37-65 | for well-formed times a form passes iff its day is not past and opening <= start < end <= closing in minutes; an unordered slot gets the order message, an ordered one outside the hours the hours message |
| BookingModal.GenerateTimeOptions | src/components/BookingModal.jsx:100-109 | the nested loops build exactly the 36-entry slot list |
| BookingModal.Modal.constructor | src/components/BookingModal.jsx:7-14 | the modal starts with empty fields, not busy, no banners and no requests |
| BookingModal.Modal.Open | src/components/BookingModal.jsx:16-26 | opening clears all three fields and both banners |
| BookingModal.Modal.HandleInputChange | src/components/BookingModal.jsx:28-35 | an input change sets only the named field and clears the error |
| BookingModal.Modal.Send | src/components/BookingModal.jsx:76-87 | the create request goes out while the modal is busy and shows no error |
| BookingModal.Modal.HandleSubmit | src/components/BookingModal.jsx:67-98 | a refused form only shows the validator's message and sends nothing; an accepted one sends one create request with the form's fields; success shows the confirmation and schedules the close, failure shows the server's message or "Failed to create booking" |
| RescheduleModal.Guards | src/components/RescheduleModal.jsx:36-64 | the reschedule validator's four guards in source order; the hours guard holds outright when the booking has no court |
| RescheduleModal.ValidateForm | src/components/RescheduleModal.jsx:36-67 | the validator returns the message of the first failing guard, with the hours guard applying only when the booking carries its court |
| RescheduleModal.SameRulesAsBooking | src/components/RescheduleModal.jsx:36-64 | with its court known, the reschedule validator gives the booking validator's verdict, only renaming the past-date message to "Cannot reschedule to past dates" |
| RescheduleModal.NoCourtNoHours | src/components/RescheduleModal.jsx:56-64 | without a court, any complete, ordered slot on a day that is not past passes |
| RescheduleModal.Prefill | src/components/RescheduleModal.jsx:17-22 | for a date `new Date` reads, the pre-filled date is its first ten characters and denotes the booking's day; the two times are the booking's |
| RescheduleModal.GenerateTimeOptions | src/components/RescheduleModal.jsx:98-107 | the reschedule modal's loops build the same slot list as the booking modal's |
| RescheduleModal.Modal.constructor | src/components/RescheduleModal.jsx:5-11 | the modal starts with empty fields, not busy, no error, no requests and no callbacks |
| RescheduleModal.Modal.Open | src/components/RescheduleModal.jsx:14-25 | opening with a booking pre-fills the form from it and clears the error; without one nothing changes |
| RescheduleModal.Modal.HandleInputChange | src/components/RescheduleModal.jsx:27-34 | an input change sets only the named field and clears the error |
| RescheduleModal.Modal.Send | src/components/RescheduleModal.jsx:78-88 | the reschedule request goes out while the modal is busy and shows no error |
| RescheduleModal.Modal.HandleSubmit | src/components/RescheduleModal.jsx:69-96 | a refused form sends nothing; an accepted one sends one reschedule request; success calls onSuccess then onClose, failure calls neither and shows the server's message or "Failed to reschedule booking" |
| BookingsPage.FormatTime | src/pages/BookingsPage.jsx:117-123 | the display is the shown hour without a leading zero, ":" and the minute text copied as it was, then " AM" or " PM" (PM from hour 12 on); the shown hour is 12 for hours 0 and 12, hour - 12 for 13 to 23 and the hour itself for 1 to 11; reading the display back gives the same minute of the day |
| BookingsPage.TwelveHourText | src/pages/BookingsPage.jsx:122 | the display template: the shown hour's decimal text, ":", the minute text, a space and "AM" or "PM" (its layout stated by `BookingsPage.TwelveHourParts`) |
| BookingsPage.ShowsOnTwelveHourClock | src/pages/BookingsPage.jsx:117-123 | what a 12-hour display of a well-formed time is: hour without leading zero, the minute text, AM or PM, reading back as the same minute |
| BookingsPage.DisplayHour | src/pages/BookingsPage.jsx:121 | the hour a 12-hour clock shows: the hour modulo twelve, or 12 when that is 0 |
| BookingsPage.HoursPart | src/pages/BookingsPage.jsx:118-119 | splitting a well-formed time at ":" and parsing the first part gives its hour |
| BookingsPage.ReadTwelveHour | src/pages/BookingsPage.jsx:120-122 | a display built from an hour 1..12, the minute text and AM/PM reads back as the minute it denotes |
| BookingsPage.TwelveHourParts | src/pages/BookingsPage.jsx:122 | in the built display the hour digits run up to the first ":", followed by the two minute characters and " AM" or " PM" |
| BookingsPage.TwelveHourRoundTrip | src/pages/BookingsPage.jsx:120-121 | the shown hour (`hour % 12`, or 12 when that is 0) is in 1..12, is 12 for hours 0 and 12 and hour - 12 after noon, and with the AM/PM half recovers the 24-hour hour |
| BookingsPage.IsUpcoming | src/pages/BookingsPage.jsx:125-130 | `new Date(date) >= today`: the day is today or later; never for a date `new Date` cannot read |
| BookingsPage.UpcomingIsNotPast | src/pages/BookingsPage.jsx:125-130 | a booking is upcoming exactly when its date is readable and the forms' past-date guard would let it through |
| BookingsPage.Keep | src/pages/BookingsPage.jsx:132-138 | the test of each tab: "all" keeps everything, "upcoming" booked and upcoming, "past" not upcoming, any other key that status |
| BookingsPage.FilterBookings | src/pages/BookingsPage.jsx:132-138 | a tab lists exactly the bookings its test keeps, and never more than there are |
| BookingsPage.FilterIsSubsequence | src/pages/BookingsPage.jsx:132-138 | every tab lists a subsequence of the bookings, in their order |
| BookingsPage.AllKeepsEverything | src/pages/BookingsPage.jsx:133 | the "all" tab lists every booking, in order |
| BookingsPage.TabMeaning | src/pages/BookingsPage.jsx:134-137 | "upcoming" keeps booked bookings not before today, "past" keeps those before today whatever their status, "cancelled" keeps the cancelled ones |
| BookingsPage.PastTabIsPastOrUnreadable | src/pages/BookingsPage.jsx:136 | the Past tab lists the bookings the forms would call past, and those whose date `new Date` cannot read |
| BookingsPage.CountUpcoming | src/pages/BookingsPage.jsx:202-204 | how many bookings are booked and upcoming |
| BookingsPage.CountPast | src/pages/BookingsPage.jsx:209 | how many bookings are not upcoming |
| BookingsPage.CountStatus | src/pages/BookingsPage.jsx:214-215 | how many bookings have exactly the given status |
| BookingsPage.Tabs | src/pages/BookingsPage.jsx:197-216 | the four tabs in order, "all", "upcoming", "past", "cancelled", each with its label and its count expression (equal to its list's length by `BookingsPage.TabCountsMatchLists`) |
| BookingsPage.TabCountsMatchLists | src/pages/BookingsPage.jsx:197-216 | each tab's count equals the length of the list the tab shows |
| BookingsPage.CountsMatch | src/pages/BookingsPage.jsx:198-215 | the upcoming, past and cancelled counts equal the lengths of the matching filter results |
| BookingsPage.SummaryBounds | src/pages/BookingsPage.jsx:161-191 | upcoming <= active <= total, active + cancelled <= total, and upcoming + past <= total |
| BookingsPage.OffersActions | src/pages/BookingsPage.jsx:367 | Reschedule and Cancel are shown for a booking that is booked and upcoming |
| BookingsPage.ActionsOnUpcomingOnly | src/pages/BookingsPage.jsx:367 | Reschedule and Cancel are offered on exactly the bookings the Upcoming tab lists, never on a past or cancelled one |
| BookingsPage.Page.constructor | src/pages/BookingsPage.jsx:9-15 | the page starts loading, on the "all" tab, with nothing selected and no cancel in flight |
| BookingsPage.Page.StartFetch | src/pages/BookingsPage.jsx:25-28 | a fetch sends the my-bookings request and sets the loading flag |
| BookingsPage.Page.FinishFetch | src/pages/BookingsPage.jsx:29-35 | a fetch response replaces the list, a failure sets "Failed to fetch bookings", and loading ends |
| BookingsPage.Page.SetFilter | src/pages/BookingsPage.jsx:220 | a tab click selects that tab and changes nothing else |
| BookingsPage.Page.SendCancel | src/pages/BookingsPage.jsx:44-45 | the cancel request goes out only while actionLoading names that booking |
| BookingsPage.Page.HandleCancelBooking | src/pages/BookingsPage.jsx:38-52 | a declined confirmation sends nothing; otherwise one cancel request, a refetch after success or the error after failure, and actionLoading cleared at the end |
| BookingsPage.Page.HandleRescheduleBooking | src/pages/BookingsPage.jsx:54-57 | the booking is selected and the reschedule modal opened |
| BookingsPage.Page.HandleRescheduleSuccess | src/pages/BookingsPage.jsx:59-62 | a successful reschedule refetches the list and clears the error |
| BookingsPage.Page.HandleCloseRescheduleModal | src/pages/BookingsPage.jsx:64-67 | closing the modal drops the selection; a booking is selected exactly while the modal is open |
| AdminDashboard.CourtForm.Set | src/pages/admin/AdminDashboard.jsx:111-116 | a change event sets the named field and leaves the other three as they were |
| AdminDashboard.EditForm | src/pages/admin/AdminDashboard.jsx:88-93 | editing copies exactly the court's name, status, opening and closing hour |
| AdminDashboard.Payload | src/pages/admin/AdminDashboard.jsx:44-52 | the saved body carries the four form fields, and an image exactly when a file was selected |
| AdminDashboard.SubmitRequest | src/pages/admin/AdminDashboard.jsx:54-63 | a save updates the edited court iff a court is being edited, and creates a court otherwise |
| AdminDashboard.SubmitFailure | src/pages/admin/AdminDashboard.jsx:78-80 | a failed save says "Failed to update court" in edit mode and "Failed to create court" otherwise |
| AdminDashboard.CountStatus | src/pages/admin/AdminDashboard.jsx:217-218 | a status tally never exceeds the number of courts |
| AdminDashboard.TalliesPartitionTotal | src/pages/admin/AdminDashboard.jsx:190-274 | the available, maintenance and closed tallies plus the courts with any other status make up the total |
| AdminDashboard.Dashboard.constructor | src/pages/admin/AdminDashboard.jsx:6-18 | the dashboard starts loading with a hidden blank form and nothing selected |
| AdminDashboard.Dashboard.FetchCourts | src/pages/admin/AdminDashboard.jsx:26-36 | a fetch sends the courts request, takes the list or sets "Failed to fetch courts", and ends loading |
| AdminDashboard.Dashboard.ResetForm | src/pages/admin/AdminDashboard.jsx:135-146 | reset hides the form, edits nothing, and restores the blank form with no file and no preview |
| AdminDashboard.Dashboard.OpenForm | src/pages/admin/AdminDashboard.jsx:284 | the Add New Court button shows the form without changing it |
| AdminDashboard.Dashboard.HandleEdit | src/pages/admin/AdminDashboard.jsx:86-97 | editing a court shows the form with the court's fields, its image as the preview and no file |
| AdminDashboard.Dashboard.HandleChange | src/pages/admin/AdminDashboard.jsx:111-116 | a change event alters only the named form field |
| AdminDashboard.Dashboard.HandleFileChange | src/pages/admin/AdminDashboard.jsx:118-121 | a chosen file becomes the selected file; no choice changes nothing |
| AdminDashboard.Dashboard.ClearImage | src/pages/admin/AdminDashboard.jsx:130-133 | clearing removes both the selected file and the preview |
| AdminDashboard.Dashboard.Send | src/pages/admin/AdminDashboard.jsx:40-63 | the save goes out while the dashboard is busy and shows no error |
| AdminDashboard.Dashboard.HandleSubmit | src/pages/admin/AdminDashboard.jsx:38-84 | a save sends one update or create request; success refetches and leaves the state resetForm leaves; failure keeps the form and names the failed mode; loading ends either way |
| AdminDashboard.Dashboard.HandleDelete | src/pages/admin/AdminDashboard.jsx:99-109 | a declined confirmation changes nothing; otherwise one delete request; on success a refetch that takes the new list or sets "Failed to fetch courts" and ends loading; on failure "Failed to delete court" with the list kept |
| Navbar.IsAdmin | src/components/Navbar.jsx:34 | `user?.role === "admin"`: a user is present and their role is exactly "admin"; with no user it is false |
| Navbar.ShowsCourts | src/components/Navbar.jsx:34 | the Courts link shows for visitors and for signed-in users whose role is not "admin" |
| Navbar.ShowsMyBookings | src/components/Navbar.jsx:42-51 | My Bookings shows for signed-in users whose role is not "admin" |
| Navbar.ShowsAdminDashboard | src/components/Navbar.jsx:42-59 | Admin Dashboard shows for signed-in users whose role is "admin" |
| Navbar.ShowsAccountArea | src/components/Navbar.jsx:71-90 | the greeting and Logout show for signed-in users |
| Navbar.ShowsLoginAndSignUp | src/components/Navbar.jsx:91-106 | Login and Sign Up show for visitors |
| Navbar.ShowsRole | src/components/Navbar.jsx:78-82 | the role line shows for a signed-in user with a non-empty role |
| Navbar.LinkRules | src/components/Navbar.jsx:34-106 | Courts shows iff signed out or not an administrator; a signed-in user sees exactly one of My Bookings and Admin Dashboard, a visitor neither; Logout and Login/Sign Up exclude each other; the role line shows only when signed in |
| Navbar.GreetingName | src/components/Navbar.jsx:76 | the greeting is never empty: the user's name if given, else text of the email before its first "@", else "User" |
| Navbar.GreetsByLocalPart | src/components/Navbar.jsx:76 | a user without a name is greeted by everything before the first "@" of the email, when that is non-empty |
| Navbar.GreetsAsUserOtherwise | src/components/Navbar.jsx:76 | a user with no name and no text before the "@" is greeted as "User" |

## Left out

- Overlap detection, closed dates and a booking lifecycle: none of these exists in the front-end. The server enforces them, and the server is not part of this model.
- HTTP: requests are logged and their outcomes are parameters. `bookingAPI` is imported from `src/utils/api.js`, which does not export it (src/utils/api.js:20-32), and `getUserFromToken` likewise. The model treats the booking calls as requests with abstract outcomes.
- `src/context/AuthContext.jsx` is not part of this model. It is storage plumbing plus a token decoder whose source is not present. The navbar's `isAuthenticated` and `user` are inputs.
- Clock and time zone: "today" is a day-key parameter. The difference between `new Date("YYYY-MM-DD")` (UTC midnight) and local midnight is not modelled. `formatDate`, `getMinDate` and `toLocaleDateString` are display helpers and are left out.
- Clock.ParseDay: accepts days 1 to 31 in every month and does not model how `Date` treats 30 February and the like. It also accepts any text after the "T" of a "YYYY-MM-DDT..." date, where `new Date` reads only a well-formed time and otherwise gives an Invalid Date; so `Clock.IsPast` and `BookingsPage.IsUpcoming` treat such text as the bare date. Every other form `new Date` accepts is read as no day: the date-only forms "YYYY" and "YYYY-MM", expanded years such as "+002025-06-01", and browser-specific forms such as "2025/06/01". So a server date in one of those forms is neither past nor upcoming in the model, while the page lists it under one of the two. The forms' own date inputs (`type="date"`) never produce these texts.
- RescheduleModal.Prefill: requires `Clock.IsDateText` of the booking's date. On a date `new Date` cannot read, `toISOString` throws inside the effect and nothing is pre-filled; the model does not describe that path (`RescheduleModal.Modal.Open` has the same requirement). `IsDateText` also admits "YYYY-MM-DDT" followed by any text (see `Clock.ParseDay`). `toISOString` gives the UTC date: a server date with a local time part can fall on a different UTC day, for example just after midnight east of UTC. The model takes the first ten characters as written.
- BookingsPage.FormatTime: requires a well-formed "HH:MM" time. On other text the source still shows a time-like display, which the model does not describe: an hour part `parseInt` cannot read gives NaN, and `NaN % 12 || 12` shows 12 AM ("ab:cd" shows "12:cd AM"); a one-digit or out-of-range hour is shown modulo twelve ("9:00" shows "9:00 AM", "25:00" shows "1:00 PM").
- BookingModal.Modal.HandleSubmit, RescheduleModal.Modal.HandleSubmit, AdminDashboard.Dashboard.HandleSubmit, BookingsPage.Page.HandleCancelBooking: each handler is one atomic step. The busy flag is stated true when the request goes out (the `Send` preconditions) and false at the end. Interleaving with other events while a request is in flight is not modelled. For the bookings page this matters: the other bookings' Cancel buttons stay enabled during a cancel, and a second cancel's `finally` would clear `actionLoading` while the first is still in flight. `BookingsPage.Page.Valid` keeps `actionLoading` empty between handlers only because each handler is one step.
- BookingsPage.Page.HandleCancelBooking: the refetch it starts is not awaited. Its response arrives later through `FinishFetch`, and the order of concurrent responses is not modelled.
- `setTimeout(onClose, 1500)` after a booking is the `closeScheduled` flag. The timer itself is not modelled.
- AdminDashboard.Dashboard.HandleFileChange: the preview that `FileReader` delivers later is not modelled; only the selected file is.
- An input `name` other than the form's fields adds a key that nothing reads. The model leaves the form unchanged in that case.
- A field missing from a server record is "", so `undefined` and "" are not told apart. For example, `handleEdit` copying a missing hour is not distinguished from copying "".
- `getStatusColor`, `getStatusIcon`, all JSX markup and CSS, the logout handler (which calls into the auth context and the router), and the rendering and routing files `src/pages/CourtsPage.jsx`, `src/pages/LandingPage.jsx` and `src/App.jsx`.
