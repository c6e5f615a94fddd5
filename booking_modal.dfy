/** The modal in which a player books a court: its validator, its list of
    time slots and its form state. */
module BookingModal {
  import opened Optional
  import opened Text
  import opened Clock
  import opened Api
  import opened FormRules

  const PastMessage := "Cannot book for past dates"
  const CreatedMessage := "Booking created successfully!"
  const FailedMessage := "Failed to create booking"

  /** The validator's guards, in the order it tries them. */
  function Guards(f: Form, court: Court, today: int): seq<Guard>
  {
    [ Guard(f.Complete(), RequiredMessage),
      Guard(!IsPast(f.date, today), PastMessage),
      Guard(Less(f.startTime, f.endTime), OrderMessage),
      Guard(WithinHours(f, Opening(court), Closing(court)), HoursMessage(Opening(court), Closing(court))) ]
  }

  /** `validateForm`: None when the form may be sent, otherwise the
      message of the first rule it breaks. */
  function ValidateForm(f: Form, court: Court, today: int): (r: Option<string>)
    ensures r == FirstFailure(Guards(f, court, today))
  {
    var gs := Guards(f, court, today);
    FirstFailureOfFour(gs[0], gs[1], gs[2], gs[3]);
    if !f.Complete() then Some(RequiredMessage)
    else if IsPast(f.date, today) then Some(PastMessage)
    else if !Less(f.startTime, f.endTime) then Some(OrderMessage)
    else if !WithinHours(f, Opening(court), Closing(court)) then
      Some(HoursMessage(Opening(court), Closing(court)))
    else None
  }

  /** A form with an empty field is refused for that reason, whatever else
      is wrong with it. */
  lemma MissingFieldFirst(f: Form, court: Court, today: int)
    requires !f.Complete()
    ensures ValidateForm(f, court, today) == Some(RequiredMessage)
  {
  }

  /** Today is not a past date; only days before it are. */
  lemma PastMeansBeforeToday(f: Form, court: Court, today: int)
    requires f.Complete() && IsDateText(f.date)
    ensures ValidateForm(f, court, today) == Some(PastMessage) <==> ParseDay(f.date).value < today
  {
  }

  /** A slot that ends when it starts is refused as out of order. */
  lemma {:induction false} EmptyIntervalRefused(f: Form, court: Court, today: int)
    requires f.Complete() && !IsPast(f.date, today) && f.startTime == f.endTime
    ensures ValidateForm(f, court, today) == Some(OrderMessage)
  {
    LessTrichotomy(f.startTime, f.endTime);
  }

  /** Both hour bounds are inclusive: a slot from the opening hour to the
      closing hour passes. */
  lemma {:induction false} WholeDayAccepted(f: Form, court: Court, today: int)
    requires f.Complete() && !IsPast(f.date, today) && Less(f.startTime, f.endTime)
    requires f.startTime == Opening(court) && f.endTime == Closing(court)
    ensures ValidateForm(f, court, today) == None
  {
    LessTrichotomy(f.startTime, Opening(court));
    LessTrichotomy(Closing(court), f.endTime);
  }

  /** For a filled-in date and well-formed times, a form passes exactly
      when its day is not past and opening <= start < end <= closing in
      minutes of the day; otherwise, once the date is not past, the message
      names the broken rule. */
  lemma {:induction false} ValidateFormByMinutes(f: Form, court: Court, today: int)
    requires f.date != "" && IsTime(f.startTime) && IsTime(f.endTime)
    requires IsTime(Opening(court)) && IsTime(Closing(court))
    ensures ValidateForm(f, court, today).None? <==>
            !IsPast(f.date, today) &&
            Minutes(Opening(court)) <= Minutes(f.startTime) < Minutes(f.endTime) <= Minutes(Closing(court))
    ensures !IsPast(f.date, today) && Minutes(f.startTime) >= Minutes(f.endTime) ==>
            ValidateForm(f, court, today) == Some(OrderMessage)
    ensures !IsPast(f.date, today) && Minutes(f.startTime) < Minutes(f.endTime) &&
            (Minutes(f.startTime) < Minutes(Opening(court)) || Minutes(f.endTime) > Minutes(Closing(court))) ==>
            ValidateForm(f, court, today) == Some(HoursMessage(Opening(court), Closing(court)))
  {
    LessIsEarlier(f.startTime, f.endTime);
    WithinHoursByMinutes(f, Opening(court), Closing(court));
  }

  /** `generateTimeOptions`: for each hour from 6 to 23, the hour
      zero-padded to two digits followed by ":00" and by ":30". */
  method GenerateTimeOptions() returns (options: seq<string>)
    ensures options == TimeOptions()
  {
    options := [];
    var hour := 6;
    while hour <= 23
      invariant 6 <= hour <= 24
      invariant |options| == 2 * (hour - 6)
      invariant forall i :: 0 <= i < |options| ==> options[i] == Slot(i)
    {
      var minutes := ["00", "30"];
      var k := 0;
      while k < |minutes|
        invariant 0 <= k <= 2
        invariant |options| == 2 * (hour - 6) + k
        invariant forall i :: 0 <= i < |options| ==> options[i] == Slot(i)
      {
        var timeString := TimeString(hour, minutes[k]);
        AppendSlot(options, hour, k, minutes[k]);
        options := options + [timeString];
        k := k + 1;
      }
      hour := hour + 1;
    }
    assert forall i :: 0 <= i < 36 ==> TimeOptions()[i] == options[i];
  }

  /** The modal's state: the court it books (a prop), the form, the busy
      flag, the error and success banners, whether `onClose` has been
      scheduled after a success, and the requests sent so far. */
  class Modal {
    const court: Court
    var form: Form
    var loading: bool
    var error: string
    var success: string
    var closeScheduled: bool
    var requests: seq<Request>

    constructor (court: Court)
      ensures this.court == court && form == Blank
      ensures !loading && error == "" && success == "" && !closeScheduled && requests == []
    {
      this.court := court;
      form := Blank;
      loading := false;
      error := "";
      success := "";
      closeScheduled := false;
      requests := [];
    }

    /** The effect run when `isOpen` turns true: empty fields, no banners. */
    method Open()
      modifies this
      ensures form == Blank && error == "" && success == ""
      ensures loading == old(loading) && closeScheduled == old(closeScheduled) && requests == old(requests)
    {
      form := Blank;
      error := "";
      success := "";
    }

    /** `handleInputChange`: the named field takes the new value and the
        error banner is cleared. */
    method HandleInputChange(name: string, value: string)
      modifies this
      ensures form == old(form).Set(name, value) && error == ""
      ensures loading == old(loading) && success == old(success)
      ensures closeScheduled == old(closeScheduled) && requests == old(requests)
    {
      form := form.Set(name, value);
      error := "";
    }

    /** A request goes out only while the modal is busy and shows no error. */
    method Send(r: Request)
      requires loading && error == ""
      modifies this`requests
      ensures requests == old(requests) + [r]
    {
      requests := requests + [r];
    }

    /** `handleSubmit`: a form the validator refuses only shows its
        message; otherwise one create request goes out with the form's
        fields, and its outcome decides the banner. */
    method HandleSubmit(today: int, outcome: Outcome)
      modifies this
      ensures form == old(form)
      ensures ValidateForm(form, court, today).Some? ==>
                error == ValidateForm(form, court, today).value &&
                requests == old(requests) && loading == old(loading) &&
                success == old(success) && closeScheduled == old(closeScheduled)
      ensures ValidateForm(form, court, today).None? ==>
                requests == old(requests) + [CreateBooking(court.id, form.date, form.startTime, form.endTime)] &&
                !loading
      ensures ValidateForm(form, court, today).None? && outcome.Succeeded? ==>
                success == CreatedMessage && error == "" && closeScheduled
      ensures ValidateForm(form, court, today).None? && outcome.Failed? ==>
                error == FailureMessage(outcome.serverError, FailedMessage) &&
                success == old(success) && closeScheduled == old(closeScheduled)
    {
      var validationError := ValidateForm(form, court, today);
      if validationError.Some? {
        error := validationError.value;
        return;
      }
      loading := true;
      error := "";
      Send(CreateBooking(court.id, form.date, form.startTime, form.endTime));
      if outcome.Succeeded? {
        success := CreatedMessage;
        closeScheduled := true;
      } else {
        error := FailureMessage(outcome.serverError, FailedMessage);
      }
      loading := false;
    }
  }
}
