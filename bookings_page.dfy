/** The player's list of bookings: the 12-hour time display, the upcoming
    test, the tab filter with its counts, when the reschedule and cancel
    actions are offered, and the page state the handlers change. */
module BookingsPage {
  import opened Optional
  import opened Text
  import opened Clock
  import opened Api

  const BookedStatus := "booked"
  const CancelledStatus := "cancelled"
  const CancelFailedMessage := "Failed to cancel booking"
  const FetchFailedMessage := "Failed to fetch bookings"

  /** `hour % 12 || 12`: the hour a 12-hour clock shows. */
  function DisplayHour(hour: nat): nat
  {
    if hour % 12 != 0 then hour % 12 else 12
  }

  /** `${displayHour}:${minutes} ${ampm}` */
  function TwelveHourText(shown: nat, minutes: string, pm: bool): string
  {
    NatToString(shown) + ":" + minutes + " " + (if pm then "PM" else "AM")
  }

  /** `r` shows the well-formed time `time` on a 12-hour clock: the
      displayed hour without a leading zero, then ":" and the minute text
      as it was, then " AM" or " PM". The displayed hour is 12 for hours
      0 and 12, the hour less twelve after noon, and the hour itself in the
      morning. Reading `r` back gives the same minute of the day. */
  predicate ShowsOnTwelveHourClock(r: string, time: string)
    requires IsTime(time)
  {
    var h := BeforeFirst(r, ':');
    |r| == |h| + 6 && h != [] && AllDigits(h) && h[0] != '0' &&
    DigitsValue(h) == (if Hour(time) == 0 then 12 else if Hour(time) > 12 then Hour(time) - 12 else Hour(time)) &&
    r[|h|..|h| + 3] == ":" + time[3..] &&
    r[|h| + 3..] == (if Hour(time) >= 12 then " PM" else " AM") &&
    FromTwelveHour(r) == Some(Minutes(time))
  }

  /** `formatTime`. */
  function FormatTime(time: string): (r: string)
    requires IsTime(time)
    ensures ShowsOnTwelveHourClock(r, time)
  {
    var hours := BeforeFirst(time, ':');
    HoursPart(time);
    var minutes := time[|hours| + 1..];
    var hour := DigitsValue(hours);
    assert minutes == time[3..] && hour == Hour(time);
    FormatTimeFacts(time);
    TwelveHourText(DisplayHour(hour), minutes, hour >= 12)
  }

  /** In a well-formed time, `split(":")` cuts after the two hour digits,
      and `parseInt` of them is the hour. */
  lemma HoursPart(time: string)
    requires IsTime(time)
    ensures BeforeFirst(time, ':') == time[..2]
    ensures DigitsValue(time[..2]) == Hour(time)
  {
    assert time[..2] == [time[0], time[1]];
    BeforeFirstAt(time, ':', 2);
    TwoDigitValue(time[..2]);
  }

  /** What `formatTime` promises, for the text it builds. */
  lemma FormatTimeFacts(time: string)
    requires IsTime(time)
    ensures ShowsOnTwelveHourClock(TwelveHourText(DisplayHour(Hour(time)), time[3..], Hour(time) >= 12), time)
  {
    var hour := Hour(time);
    var shown := DisplayHour(hour);
    var minutes := time[3..];
    assert minutes == [time[3], time[4]];
    TwoDigitValue(minutes);
    TwelveHourParts(shown, minutes, hour >= 12);
    DigitsValueOfNatToString(shown);
    TwelveHourRoundTrip(hour);
    SmallNatToString(shown);
    assert NatToString(shown)[0] != '0';
    ReadTwelveHour(shown, minutes, hour >= 12);
  }

  /** Reading a "h:MM AM" / "h:MM PM" display back into a minute of the
      day, for a displayed hour from 1 to 12; None for any other text. */
  function FromTwelveHour(s: string): Option<nat>
  {
    ReadFields(s, BeforeFirst(s, ':'))
  }

  /** The minute of the day a display `s` denotes, once its hour digits
      `h` (the text before the first colon) are known. */
  function ReadFields(s: string, h: string): Option<nat>
  {
    if |s| == |h| + 6 && h != [] && AllDigits(h) && 1 <= DigitsValue(h) <= 12 &&
       AllDigits(s[|h| + 1..|h| + 3]) && DigitsValue(s[|h| + 1..|h| + 3]) < 60 &&
       (s[|h| + 3..] == " AM" || s[|h| + 3..] == " PM")
    then
      var pm := if s[|h| + 3..] == " PM" then 12 else 0;
      Some((DigitsValue(h) % 12 + pm) * 60 + DigitsValue(s[|h| + 1..|h| + 3]))
    else None
  }

  lemma TwoDigitValue(s: string)
    requires |s| == 2 && AllDigits(s)
    ensures DigitsValue(s) == DigitValue(s[0]) * 10 + DigitValue(s[1])
  {
    assert s[..|s| - 1] == s[..1] == [s[0]];
    assert [s[0]][..0] == [];
    assert DigitsValue([s[0]]) == DigitValue(s[0]);
  }

  /** Where the parts of a 12-hour display sit: the hour digits up to the
      first colon, then the two minute characters, then " AM" or " PM". */
  lemma TwelveHourParts(shown: nat, minutes: string, pm: bool)
    requires |minutes| == 2
    ensures var s := TwelveHourText(shown, minutes, pm);
            var d := NatToString(shown);
            BeforeFirst(s, ':') == d && |s| == |d| + 6 &&
            s[|d|..|d| + 3] == ":" + minutes && s[|d| + 1..|d| + 3] == minutes &&
            s[|d| + 3..] == (if pm then " PM" else " AM")
  {
    var d := NatToString(shown);
    var ampm := if pm then " PM" else " AM";
    var tail := [':', minutes[0], minutes[1]] + ampm;
    var s := TwelveHourText(shown, minutes, pm);
    assert s == d + tail;
    forall i | 0 <= i < |d| ensures d[i] != ':' {
      assert IsDigit(d[i]);
    }
    assert s[..|d|] == d && s[|d|..] == tail;
    BeforeFirstAt(s, ':', |d|);
    assert tail[..3] == ":" + minutes && tail[1..3] == minutes && tail[3..] == ampm;
  }

  /** A display built from an hour 1..12, two minute digits and a half of
      the day reads back as the minute it denotes. */
  lemma ReadTwelveHour(shown: nat, minutes: string, pm: bool)
    requires 1 <= shown <= 12 && |minutes| == 2 && AllDigits(minutes) && DigitsValue(minutes) < 60
    ensures FromTwelveHour(TwelveHourText(shown, minutes, pm)) ==
            Some((shown % 12 + (if pm then 12 else 0)) * 60 + DigitsValue(minutes))
  {
    var s := TwelveHourText(shown, minutes, pm);
    var h := NatToString(shown);
    TwelveHourParts(shown, minutes, pm);
    DigitsValueOfNatToString(shown);
    ReadDisplay(s, h, shown, minutes, pm);
  }

  /** A display whose parts sit where `TwelveHourParts` puts them reads
      back as the minute they denote. */
  lemma ReadDisplay(s: string, h: string, shown: nat, minutes: string, pm: bool)
    requires BeforeFirst(s, ':') == h && h != [] && AllDigits(h) && DigitsValue(h) == shown && 1 <= shown <= 12
    requires |s| == |h| + 6 && s[|h| + 1..|h| + 3] == minutes && AllDigits(minutes) && DigitsValue(minutes) < 60
    requires s[|h| + 3..] == (if pm then " PM" else " AM")
    ensures FromTwelveHour(s) == Some((shown % 12 + (if pm then 12 else 0)) * 60 + DigitsValue(minutes))
  {
    ReadFieldsOf(s, h, shown, minutes, pm);
  }

  /** The fields of a display, read back. */
  lemma ReadFieldsOf(s: string, h: string, shown: nat, minutes: string, pm: bool)
    requires h != [] && AllDigits(h) && DigitsValue(h) == shown && 1 <= shown <= 12
    requires |s| == |h| + 6 && s[|h| + 1..|h| + 3] == minutes && AllDigits(minutes) && DigitsValue(minutes) < 60
    requires s[|h| + 3..] == (if pm then " PM" else " AM")
    ensures ReadFields(s, h) == Some((shown % 12 + (if pm then 12 else 0)) * 60 + DigitsValue(minutes))
  {
  }

  /** The displayed hour and the AM/PM half recover the 24-hour hour: the
      12-hour display loses nothing. */
  lemma TwelveHourRoundTrip(hour: nat)
    requires hour < 24
    ensures 1 <= DisplayHour(hour) <= 12
    ensures DisplayHour(hour) % 12 + (if hour >= 12 then 12 else 0) == hour
    ensures DisplayHour(hour) == if hour == 0 then 12 else if hour > 12 then hour - 12 else hour
  {
  }

  /** `isUpcoming`: the booking's day is today or later. A date `new Date`
      cannot read is never upcoming. */
  predicate IsUpcoming(date: string, today: int)
  {
    match ParseDay(date)
    case Some(d) => d >= today
    case None => false
  }

  /** A booking is upcoming exactly when its date is one `new Date` reads
      and the booking form's past-date guard would let it through: the
      page and the forms draw the line between past and upcoming at the
      same day. */
  lemma UpcomingIsNotPast(date: string, today: int)
    ensures IsUpcoming(date, today) <==> IsDateText(date) && !IsPast(date, today)
  {
  }

  /** The test `filteredBookings` applies for the selected tab. */
  predicate Keep(b: Booking, filter: string, today: int)
  {
    if filter == "all" then true
    else if filter == "upcoming" then b.status == BookedStatus && IsUpcoming(b.date, today)
    else if filter == "past" then !IsUpcoming(b.date, today)
    else b.status == filter
  }

  /** `bookings.filter(...)`: the bookings the selected tab lists. */
  function FilterBookings(bookings: seq<Booking>, filter: string, today: int): (r: seq<Booking>)
    ensures |r| <= |bookings|
    ensures forall b :: b in r <==> b in bookings && Keep(b, filter, today)
  {
    if bookings == [] then []
    else
      var rest := FilterBookings(bookings[1..], filter, today);
      assert forall b :: b in bookings <==> b == bookings[0] || b in bookings[1..];
      if Keep(bookings[0], filter, today) then [bookings[0]] + rest else rest
  }

  /** `r` is `s` with some elements dropped and the rest kept in order. */
  predicate IsSubsequence(r: seq<Booking>, s: seq<Booking>)
  {
    if r == [] then true
    else if s == [] then false
    else if r[0] == s[0] then IsSubsequence(r[1..], s[1..])
    else IsSubsequence(r, s[1..])
  }

  /** Every tab lists a subsequence of the bookings: nothing is added or
      reordered. */
  lemma {:induction false} FilterIsSubsequence(bookings: seq<Booking>, filter: string, today: int)
    ensures IsSubsequence(FilterBookings(bookings, filter, today), bookings)
  {
    if bookings != [] {
      FilterIsSubsequence(bookings[1..], filter, today);
      var rest := FilterBookings(bookings[1..], filter, today);
      if !Keep(bookings[0], filter, today) {
        SkipHead(rest, bookings);
      } else {
        assert ([bookings[0]] + rest)[1..] == rest;
      }
    }
  }

  /** Dropping the head of `s` keeps every subsequence of its tail a
      subsequence of `s`. */
  lemma {:induction false} SkipHead(r: seq<Booking>, s: seq<Booking>)
    requires s != [] && IsSubsequence(r, s[1..])
    ensures IsSubsequence(r, s)
    decreases |s|, 1
  {
    if r != [] && r[0] == s[0] {
      DropFirst(r, s[1..]);
    }
  }

  /** Dropping the head of a subsequence leaves a subsequence. */
  lemma {:induction false} DropFirst(r: seq<Booking>, t: seq<Booking>)
    requires r != [] && IsSubsequence(r, t)
    ensures IsSubsequence(r[1..], t)
    decreases |t| + 1, 0
  {
    if r[0] == t[0] {
      SkipHead(r[1..], t);
    } else {
      DropFirst(r, t[1..]);
      SkipHead(r[1..], t);
    }
  }

  /** The "all" tab lists every booking, in order. */
  lemma {:induction false} AllKeepsEverything(bookings: seq<Booking>, today: int)
    ensures FilterBookings(bookings, "all", today) == bookings
  {
    if bookings != [] {
      AllKeepsEverything(bookings[1..], today);
      assert [bookings[0]] + bookings[1..] == bookings;
    }
  }

  /** The Past tab lists the bookings whose day the forms would call past,
      and those whose date `new Date` cannot read. */
  lemma PastTabIsPastOrUnreadable(bookings: seq<Booking>, today: int, b: Booking)
    ensures b in FilterBookings(bookings, "past", today) <==>
            b in bookings && (IsPast(b.date, today) || !IsDateText(b.date))
  {
    UpcomingIsNotPast(b.date, today);
  }

  /** What each tab lists: upcoming = booked and not before today; past =
      before today whatever the status; any other key = that status. */
  lemma TabMeaning(bookings: seq<Booking>, today: int, b: Booking)
    ensures b in FilterBookings(bookings, "upcoming", today) <==>
            b in bookings && b.status == BookedStatus && IsUpcoming(b.date, today)
    ensures b in FilterBookings(bookings, "past", today) <==>
            b in bookings && !IsUpcoming(b.date, today)
    ensures b in FilterBookings(bookings, CancelledStatus, today) <==>
            b in bookings && b.status == CancelledStatus
  {
  }

  /** How many bookings satisfy `b.status === "booked" && isUpcoming(b.date)`
      (the Upcoming card and tab). */
  function CountUpcoming(bookings: seq<Booking>, today: int): nat
  {
    if bookings == [] then 0
    else CountUpcoming(bookings[1..], today) +
         (if bookings[0].status == BookedStatus && IsUpcoming(bookings[0].date, today) then 1 else 0)
  }

  /** How many bookings satisfy `!isUpcoming(b.date)` (the Past tab). */
  function CountPast(bookings: seq<Booking>, today: int): nat
  {
    if bookings == [] then 0
    else CountPast(bookings[1..], today) + (if !IsUpcoming(bookings[0].date, today) then 1 else 0)
  }

  /** How many bookings have exactly the status `s` (the Active and
      Cancelled cards, the Cancelled tab). */
  function CountStatus(bookings: seq<Booking>, s: string): nat
  {
    if bookings == [] then 0
    else CountStatus(bookings[1..], s) + (if bookings[0].status == s then 1 else 0)
  }

  /** A tab of the filter bar: its key and the count shown on it. */
  datatype Tab = Tab(key: string, caption: string, count: nat)

  /** The four tabs with their counts, each count computed by its own
      expression as on the page. */
  function Tabs(bookings: seq<Booking>, today: int): seq<Tab>
  {
    [ Tab("all", "All Bookings", |bookings|),
      Tab("upcoming", "Upcoming", CountUpcoming(bookings, today)),
      Tab("past", "Past", CountPast(bookings, today)),
      Tab("cancelled", "Cancelled", CountStatus(bookings, CancelledStatus)) ]
  }

  /** Each tab's count is the number of bookings the tab lists. */
  lemma {:induction false} TabCountsMatchLists(bookings: seq<Booking>, today: int)
    ensures forall t :: t in Tabs(bookings, today) ==> t.count == |FilterBookings(bookings, t.key, today)|
  {
    AllKeepsEverything(bookings, today);
    CountsMatch(bookings, today);
  }

  lemma {:induction false} CountsMatch(bookings: seq<Booking>, today: int)
    ensures CountUpcoming(bookings, today) == |FilterBookings(bookings, "upcoming", today)|
    ensures CountPast(bookings, today) == |FilterBookings(bookings, "past", today)|
    ensures CountStatus(bookings, CancelledStatus) == |FilterBookings(bookings, CancelledStatus, today)|
  {
    if bookings != [] {
      CountsMatch(bookings[1..], today);
    }
  }

  /** The summary cards: upcoming <= active <= total, active and cancelled
      together at most the total, and upcoming and past never overlap. */
  lemma {:induction false} SummaryBounds(bookings: seq<Booking>, today: int)
    ensures CountUpcoming(bookings, today) <= CountStatus(bookings, BookedStatus) <= |bookings|
    ensures CountStatus(bookings, BookedStatus) + CountStatus(bookings, CancelledStatus) <= |bookings|
    ensures CountUpcoming(bookings, today) + CountPast(bookings, today) <= |bookings|
  {
    if bookings != [] {
      SummaryBounds(bookings[1..], today);
    }
  }

  /** Reschedule and Cancel are offered for a booking that is booked and
      not before today. */
  predicate OffersActions(b: Booking, today: int)
  {
    b.status == BookedStatus && IsUpcoming(b.date, today)
  }

  /** The actions are offered on exactly the bookings the Upcoming tab
      lists, never on one the Past or Cancelled tab lists. */
  lemma ActionsOnUpcomingOnly(bookings: seq<Booking>, today: int, b: Booking)
    requires b in bookings
    ensures OffersActions(b, today) <==> b in FilterBookings(bookings, "upcoming", today)
    ensures OffersActions(b, today) ==> b !in FilterBookings(bookings, "past", today)
    ensures OffersActions(b, today) ==> b !in FilterBookings(bookings, CancelledStatus, today)
  {
  }

  /** The page's state: the bookings fetched, the selected tab, the busy
      flags, the error banner, the booking being rescheduled and whether
      its modal is open, and the requests sent so far. */
  class Page {
    var bookings: seq<Booking>
    var loading: bool
    var error: string
    var filter: string
    var actionLoading: Option<string>
    var selectedBooking: Option<Booking>
    var rescheduleOpen: bool
    var requests: seq<Request>

    /** Between two handlers no cancel is in flight, and a booking is
        selected exactly while the reschedule modal is open. */
    ghost predicate Valid()
      reads this
    {
      actionLoading.None? && (selectedBooking.Some? <==> rescheduleOpen)
    }

    constructor ()
      ensures Valid() && bookings == [] && loading && error == "" && filter == "all"
      ensures selectedBooking.None? && requests == []
    {
      bookings := [];
      loading := true;
      error := "";
      filter := "all";
      actionLoading := None;
      selectedBooking := None;
      rescheduleOpen := false;
      requests := [];
    }

    /** `fetchBookings`, first half: the request goes out. */
    method StartFetch()
      modifies this
      ensures requests == old(requests) + [GetMyBookings] && loading
      ensures bookings == old(bookings) && error == old(error) && filter == old(filter)
      ensures actionLoading == old(actionLoading) && selectedBooking == old(selectedBooking)
      ensures rescheduleOpen == old(rescheduleOpen)
    {
      loading := true;
      requests := requests + [GetMyBookings];
    }

    /** `fetchBookings`, second half: the list arrives (Some) or the
        request fails (None). */
    method FinishFetch(response: Option<seq<Booking>>)
      modifies this
      ensures !loading
      ensures response.Some? ==> bookings == response.value && error == old(error)
      ensures response.None? ==> bookings == old(bookings) && error == FetchFailedMessage
      ensures requests == old(requests) && filter == old(filter)
      ensures actionLoading == old(actionLoading) && selectedBooking == old(selectedBooking)
      ensures rescheduleOpen == old(rescheduleOpen)
    {
      if response.Some? {
        bookings := response.value;
      } else {
        error := FetchFailedMessage;
      }
      loading := false;
    }

    /** A tab click selects its key. */
    method SetFilter(key: string)
      modifies this
      ensures filter == key
      ensures bookings == old(bookings) && loading == old(loading) && error == old(error)
      ensures actionLoading == old(actionLoading) && selectedBooking == old(selectedBooking)
      ensures rescheduleOpen == old(rescheduleOpen) && requests == old(requests)
    {
      filter := key;
    }

    /** The cancel request itself, sent only while `actionLoading` names
        the booking being cancelled. */
    method SendCancel(bookingId: string)
      requires actionLoading == Some(bookingId)
      modifies this`requests
      ensures requests == old(requests) + [CancelBooking(bookingId)]
    {
      requests := requests + [CancelBooking(bookingId)];
    }

    /** `handleCancelBooking`: nothing happens unless the user confirms;
        then the cancel request goes out with `actionLoading` set to the
        booking, a refetch follows a success, a failure sets the error,
        and `actionLoading` is cleared in the end. */
    method HandleCancelBooking(bookingId: string, confirmed: bool, outcome: Outcome)
      requires Valid()
      modifies this
      ensures Valid()
      ensures !confirmed ==> requests == old(requests) && error == old(error) && loading == old(loading)
      ensures confirmed && outcome.Succeeded? ==>
                requests == old(requests) + [CancelBooking(bookingId), GetMyBookings] &&
                error == old(error) && loading
      ensures confirmed && outcome.Failed? ==>
                requests == old(requests) + [CancelBooking(bookingId)] &&
                error == FailureMessage(outcome.serverError, CancelFailedMessage) &&
                loading == old(loading)
      ensures bookings == old(bookings) && filter == old(filter)
      ensures selectedBooking == old(selectedBooking) && rescheduleOpen == old(rescheduleOpen)
    {
      if !confirmed {
        return;
      }
      actionLoading := Some(bookingId);
      SendCancel(bookingId);
      if outcome.Succeeded? {
        StartFetch();
      } else {
        error := FailureMessage(outcome.serverError, CancelFailedMessage);
      }
      actionLoading := None;
    }

    /** `handleRescheduleBooking`: select the booking and open the modal. */
    method HandleRescheduleBooking(b: Booking)
      requires Valid()
      modifies this
      ensures Valid() && selectedBooking == Some(b) && rescheduleOpen
      ensures bookings == old(bookings) && loading == old(loading) && error == old(error)
      ensures filter == old(filter) && requests == old(requests)
    {
      selectedBooking := Some(b);
      rescheduleOpen := true;
    }

    /** `handleCloseRescheduleModal`: close the modal and drop the
        selection. */
    method HandleCloseRescheduleModal()
      requires Valid()
      modifies this
      ensures Valid() && selectedBooking.None? && !rescheduleOpen
      ensures bookings == old(bookings) && loading == old(loading) && error == old(error)
      ensures filter == old(filter) && requests == old(requests)
    {
      rescheduleOpen := false;
      selectedBooking := None;
    }

    /** `handleRescheduleSuccess`: refetch the list and clear the error. */
    method HandleRescheduleSuccess()
      requires Valid()
      modifies this
      ensures Valid() && error == "" && loading
      ensures requests == old(requests) + [GetMyBookings]
      ensures bookings == old(bookings) && filter == old(filter)
      ensures selectedBooking == old(selectedBooking) && rescheduleOpen == old(rescheduleOpen)
    {
      StartFetch();
      error := "";
    }
  }
}
