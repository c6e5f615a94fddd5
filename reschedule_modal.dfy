/** The modal in which a player moves one of their bookings: its validator,
    which checks the court's hours only when the booking carries its court,
    its list of time slots and its form state. */
module RescheduleModal {
  import opened Optional
  import opened Text
  import opened Clock
  import opened Api
  import opened FormRules
  import BookingModal

  const PastMessage := "Cannot reschedule to past dates"
  const FailedMessage := "Failed to reschedule booking"

  /** The validator's guards, in the order it tries them. The hours guard
      applies only when the booking carries its court: without one it
      always holds. */
  function Guards(f: Form, court: Option<Court>, today: int): seq<Guard>
  {
    [ Guard(f.Complete(), RequiredMessage),
      Guard(!IsPast(f.date, today), PastMessage),
      Guard(Less(f.startTime, f.endTime), OrderMessage),
      match court
      case None => Guard(true, "")
      case Some(c) => Guard(WithinHours(f, Opening(c), Closing(c)), HoursMessage(Opening(c), Closing(c))) ]
  }

  /** `validateForm`: None when the new slot may be sent, otherwise the
      message of the first rule it breaks. */
  function ValidateForm(f: Form, court: Option<Court>, today: int): (r: Option<string>)
    ensures r == FirstFailure(Guards(f, court, today))
  {
    var gs := Guards(f, court, today);
    FirstFailureOfFour(gs[0], gs[1], gs[2], gs[3]);
    if !f.Complete() then Some(RequiredMessage)
    else if IsPast(f.date, today) then Some(PastMessage)
    else if !Less(f.startTime, f.endTime) then Some(OrderMessage)
    else if court.Some? && !WithinHours(f, Opening(court.value), Closing(court.value)) then
      Some(HoursMessage(Opening(court.value), Closing(court.value)))
    else None
  }

  /** With its court known, a new slot is judged exactly as the booking
      form judges a new booking, save for the wording of the past-date
      message. */
  lemma SameRulesAsBooking(f: Form, c: Court, today: int)
    ensures ValidateForm(f, Some(c), today) ==
            if BookingModal.ValidateForm(f, c, today) == Some(BookingModal.PastMessage) then Some(PastMessage)
            else BookingModal.ValidateForm(f, c, today)
  {
  }

  /** Without its court, any complete, ordered slot on a day that is not
      past is accepted, whatever its hours. */
  lemma NoCourtNoHours(f: Form, today: int)
    ensures ValidateForm(f, None, today).None? <==>
            f.Complete() && !IsPast(f.date, today) && Less(f.startTime, f.endTime)
    ensures ValidateForm(f, None, today).Some? ==>
            ValidateForm(f, None, today).value in {RequiredMessage, PastMessage, OrderMessage}
  {
  }

  /** The form a booking pre-fills: the date part of its date and its two
      times. The date must be one `new Date` reads: on any other,
      `toISOString` throws. */
  function Prefill(b: Booking): (f: Form)
    requires IsDateText(b.date)
    ensures ParseDay(f.date) == ParseDay(b.date) && |f.date| == 10 && f.date == b.date[..10]
    ensures f.startTime == b.startTime && f.endTime == b.endTime
  {
    DatePartSameDay(b.date);
    Form(DatePart(b.date), b.startTime, b.endTime)
  }

  /** `generateTimeOptions`, the same loops as in the booking form. */
  method GenerateTimeOptions() returns (options: seq<string>)
    ensures options == TimeOptions()
  {
    options := [];
    var hour := 6;
    while hour <= 23
      invariant 6 <= hour <= 24
      invariant |options| == 2 * (hour - 6)
      invariant forall i :: 0 <= i < |options| ==> options[i] == Slot(i)
    {
      var minutes := ["00", "30"];
      var k := 0;
      while k < |minutes|
        invariant 0 <= k <= 2
        invariant |options| == 2 * (hour - 6) + k
        invariant forall i :: 0 <= i < |options| ==> options[i] == Slot(i)
      {
        var timeString := TimeString(hour, minutes[k]);
        AppendSlot(options, hour, k, minutes[k]);
        options := options + [timeString];
        k := k + 1;
      }
      hour := hour + 1;
    }
    assert forall i :: 0 <= i < 36 ==> TimeOptions()[i] == options[i];
  }

  /** Calls the modal makes to the functions its parent passed in. */
  datatype Callback = OnSuccess | OnClose

  /** The modal's state: the booking being moved (a prop), the form, the
      busy flag, the error banner, the requests sent and the callbacks
      made so far. */
  class Modal {
    var booking: Option<Booking>
    var form: Form
    var loading: bool
    var error: string
    var requests: seq<Request>
    var callbacks: seq<Callback>

    constructor ()
      ensures booking == None && form == Blank && !loading && error == ""
      ensures requests == [] && callbacks == []
    {
      booking := None;
      form := Blank;
      loading := false;
      error := "";
      requests := [];
      callbacks := [];
    }

    /** The parent opens the modal for `b`; the effect then fills the form
        from the booking and clears the error. Without a booking the effect
        does nothing. */
    method Open(b: Option<Booking>)
      requires b.Some? ==> IsDateText(b.value.date)
      modifies this
      ensures booking == b
      ensures b.Some? ==> form == Prefill(b.value) && error == ""
      ensures b.None? ==> form == old(form) && error == old(error)
      ensures loading == old(loading) && requests == old(requests) && callbacks == old(callbacks)
    {
      booking := b;
      if b.Some? {
        form := Prefill(b.value);
        error := "";
      }
    }

    /** `handleInputChange`: the named field takes the new value and the
        error banner is cleared. */
    method HandleInputChange(name: string, value: string)
      modifies this
      ensures form == old(form).Set(name, value) && error == ""
      ensures booking == old(booking) && loading == old(loading)
      ensures requests == old(requests) && callbacks == old(callbacks)
    {
      form := form.Set(name, value);
      error := "";
    }

    /** A request goes out only while the modal is busy and shows no error. */
    method Send(r: Request)
      requires loading && error == ""
      modifies this`requests
      ensures requests == old(requests) + [r]
    {
      requests := requests + [r];
    }

    /** `handleSubmit`, reachable only while a booking is shown: a refused
        form only shows its message; otherwise one reschedule request goes
        out, and on success the parent is told and the modal closed, in
        that order, while on failure neither happens and the error is set. */
    method HandleSubmit(today: int, outcome: Outcome)
      requires booking.Some?
      modifies this
      ensures form == old(form) && booking == old(booking)
      ensures ValidateForm(form, booking.value.court, today).Some? ==>
                error == ValidateForm(form, booking.value.court, today).value &&
                requests == old(requests) && callbacks == old(callbacks) && loading == old(loading)
      ensures ValidateForm(form, booking.value.court, today).None? ==>
                requests == old(requests) +
                  [RescheduleBooking(booking.value.id, form.date, form.startTime, form.endTime)] &&
                !loading
      ensures ValidateForm(form, booking.value.court, today).None? && outcome.Succeeded? ==>
                callbacks == old(callbacks) + [OnSuccess, OnClose] && error == ""
      ensures ValidateForm(form, booking.value.court, today).None? && outcome.Failed? ==>
                callbacks == old(callbacks) &&
                error == FailureMessage(outcome.serverError, FailedMessage)
    {
      var validationError := ValidateForm(form, booking.value.court, today);
      if validationError.Some? {
        error := validationError.value;
        return;
      }
      loading := true;
      error := "";
      Send(RescheduleBooking(booking.value.id, form.date, form.startTime, form.endTime));
      if outcome.Succeeded? {
        callbacks := callbacks + [OnSuccess, OnClose];
      } else {
        error := FailureMessage(outcome.serverError, FailedMessage);
      }
      loading := false;
    }
  }
}
