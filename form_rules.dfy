/** What the booking form and the reschedule form share: the three form
    fields, the guard-chain shape of their validators, the messages and
    the court hours with their defaults. */
module FormRules {
  import opened Optional
  import opened Text
  import opened Clock
  import opened Api

  /** The form state `{ date, startTime, endTime }` of both modals. */
  datatype Form = Form(date: string, startTime: string, endTime: string)
  {
    /** No field is empty: the first guard of both validators. */
    predicate Complete()
    {
      date != "" && startTime != "" && endTime != ""
    }

    /** `{ ...prev, [name]: value }`: the field called `name` takes
        `value` and the others keep theirs. Any other name only adds a key
        that nothing reads, so the three fields stay as they were. */
    function Set(name: string, value: string): (f: Form)
      ensures f.date == (if name == "date" then value else date)
      ensures f.startTime == (if name == "startTime" then value else startTime)
      ensures f.endTime == (if name == "endTime" then value else endTime)
    {
      if name == "date" then this.(date := value)
      else if name == "startTime" then this.(startTime := value)
      else if name == "endTime" then this.(endTime := value)
      else this
    }
  }

  const Blank := Form("", "", "")

  const RequiredMessage := "All fields are required"
  const OrderMessage := "End time must be after start time"

  function HoursMessage(open: string, close: string): string
  {
    "Booking must be within operating hours: " + open + " - " + close
  }

  /** One step of a validator: whether its condition holds, and the
      message returned when it does not. */
  datatype Guard = Guard(holds: bool, message: string)

  /** The message of the first guard that does not hold, or None when
      they all hold. */
  function FirstFailure(gs: seq<Guard>): (r: Option<string>)
    ensures r.None? <==> forall i :: 0 <= i < |gs| ==> gs[i].holds
    ensures r.Some? ==> exists i :: 0 <= i < |gs| && !gs[i].holds && r.value == gs[i].message &&
                                   forall j :: 0 <= j < i ==> gs[j].holds
  {
    if gs == [] then None
    else if !gs[0].holds then Some(gs[0].message)
    else
      var r := FirstFailure(gs[1..]);
      assert forall i :: 1 <= i < |gs| ==> gs[i] == gs[1..][i - 1];
      r
  }

  /** A chain fails at its first guard when that one does not hold, and
      otherwise wherever the rest of the chain fails. */
  lemma FirstFailureCons(g: Guard, gs: seq<Guard>)
    ensures FirstFailure([g] + gs) == if !g.holds then Some(g.message) else FirstFailure(gs)
  {
    assert ([g] + gs)[1..] == gs;
  }

  /** A chain of four guards fails at the first of them that does not
      hold, and passes when none fails. */
  lemma FirstFailureOfFour(g0: Guard, g1: Guard, g2: Guard, g3: Guard)
    ensures FirstFailure([g0, g1, g2, g3]) ==
            if !g0.holds then Some(g0.message)
            else if !g1.holds then Some(g1.message)
            else if !g2.holds then Some(g2.message)
            else if !g3.holds then Some(g3.message)
            else None
  {
    FirstFailureCons(g3, []);
    assert [g3] + [] == [g3];
    FirstFailureCons(g2, [g3]);
    assert [g2] + [g3] == [g2, g3];
    FirstFailureCons(g1, [g2, g3]);
    assert [g1] + [g2, g3] == [g1, g2, g3];
    FirstFailureCons(g0, [g1, g2, g3]);
    assert [g0] + [g1, g2, g3] == [g0, g1, g2, g3];
  }

  /** `court.openingHour || "08:00"`: the court's opening hour, or eight
      in the morning when the court has none. */
  function Opening(c: Court): (t: string)
    ensures t != ""
    ensures c.openingHour != "" ==> t == c.openingHour
    ensures c.openingHour == "" ==> IsTime(t) && Minutes(t) == 8 * 60
  {
    if c.openingHour != "" then c.openingHour else "08:00"
  }

  /** `court.closingHour || "22:00"`: the court's closing hour, or ten at
      night when the court has none. */
  function Closing(c: Court): (t: string)
    ensures t != ""
    ensures c.closingHour != "" ==> t == c.closingHour
    ensures c.closingHour == "" ==> IsTime(t) && Minutes(t) == 22 * 60
  {
    if c.closingHour != "" then c.closingHour else "22:00"
  }

  /** Neither `startTime < open` nor `endTime > close`: the interval lies
      within the hours, both bounds included. */
  predicate WithinHours(f: Form, open: string, close: string)
  {
    !Less(f.startTime, open) && !Less(close, f.endTime)
  }

  /** For well-formed times, `WithinHours` is the inclusive bound check on
      minutes of the day. */
  lemma WithinHoursByMinutes(f: Form, open: string, close: string)
    requires IsTime(f.startTime) && IsTime(f.endTime) && IsTime(open) && IsTime(close)
    ensures WithinHours(f, open, close) <==>
            Minutes(open) <= Minutes(f.startTime) && Minutes(f.endTime) <= Minutes(close)
  {
    LessIsEarlier(f.startTime, open);
    LessIsEarlier(close, f.endTime);
  }
}
