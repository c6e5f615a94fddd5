/** The records the components receive from the server, the requests they
    send to it and the way an awaited request ends. The HTTP client itself
    is not modelled: each request is logged by the component that makes it,
    and its outcome is a parameter of the handler that awaits it. */
module Api {
  import opened Optional

  /** A court as the server returns it. A field the server leaves out is
      "" here: the source only ever tests such fields for truthiness. */
  datatype Court = Court(
    id: string,
    name: string,
    status: string,
    openingHour: string,
    closingHour: string,
    image: string)

  /** A booking as the server returns it; `court` is absent when the
      booking does not carry its court. */
  datatype Booking = Booking(
    id: string,
    court: Option<Court>,
    date: string,
    startTime: string,
    endTime: string,
    status: string)

  /** The multipart body of a court create or update; `image` is the
      selected file, when there is one. */
  datatype CourtPayload = CourtPayload(
    name: string,
    status: string,
    openingHour: string,
    closingHour: string,
    image: Option<string>)

  /** The requests the components send, in the order they send them. */
  datatype Request =
    | CreateBooking(courtId: string, date: string, startTime: string, endTime: string)
    | RescheduleBooking(bookingId: string, date: string, startTime: string, endTime: string)
    | CancelBooking(bookingId: string)
    | GetMyBookings
    | GetAllCourts
    | CreateCourt(data: CourtPayload)
    | UpdateCourt(courtId: string, data: CourtPayload)
    | DeleteCourt(courtId: string)

  /** How an awaited request ended: success, or failure carrying the
      `error` text of the response body ("" when there is none). */
  datatype Outcome = Succeeded | Failed(serverError: string)

  /** `err.response?.data?.error || fallback`: the server's own message
      whenever it sent one, the fallback otherwise; never empty. */
  function FailureMessage(serverError: string, fallback: string): (m: string)
    requires fallback != ""
    ensures m != ""
    ensures serverError != "" ==> m == serverError
    ensures serverError == "" ==> m == fallback
  {
    if serverError != "" then serverError else fallback
  }
}
