/** A doctor's card in the directory: the date picker and the booking
    handler with its guards, request and state changes. */
module Booking {
  import opened Api
  import Types

  /** The body of `POST /appointments`. */
  datatype BookingRequest = BookingRequest(doctorId: string, date: string)

  const SelectDate: string := "Please select a date"
  const Booked: string := "Appointment booked successfully!"
  const BookingFailed: string := "Failed to book appointment"

  predicate HasServerMessage(e: Thrown) {
    e.AxiosErrorObject? && e.responseMessage.Some? && e.responseMessage.value != ""
  }

  /** The text of a failed booking: the server's message when the axios
      error carries a non-empty one, else the error's own message, else the
      generic fallback. */
  function BookingErrorMessage(e: Thrown): (text: string)
    ensures HasServerMessage(e) ==> text == e.responseMessage.value
    ensures !HasServerMessage(e) && IsErrorInstance(e) ==> text == e.message
    ensures !IsErrorInstance(e) ==> text == BookingFailed
  {
    if HasServerMessage(e) then e.responseMessage.value
    else if IsErrorInstance(e) then e.message
    else BookingFailed
  }

  /** The card reports failures as the appointment pages do, except that a
      server message takes precedence. */
  lemma BookingErrorRefinesCaught(e: Thrown)
    ensures !HasServerMessage(e) ==> BookingErrorMessage(e) == CaughtMessage(e, BookingFailed)
  {
  }

  class DoctorCard {
    const doctor: Types.Doctor
    var loading: bool
    var date: string
    var showDatePicker: bool

    constructor (doctor: Types.Doctor)
      ensures this.doctor == doctor
      ensures !loading && date == "" && !showDatePicker
    {
      this.doctor := doctor;
      loading := false;
      date := "";
      showDatePicker := false;
    }

    /** "Book Appointment" shows the picker. */
    method OpenPicker()
      modifies this`showDatePicker
      ensures showDatePicker
    {
      showDatePicker := true;
    }

    /** "Cancel" hides the picker and keeps the chosen date. */
    method ClosePicker()
      modifies this`showDatePicker
      ensures !showDatePicker
    {
      showDatePicker := false;
    }

    method PickDate(value: string)
      modifies this`date
      ensures date == value
    {
      date := value;
    }

    /** `handleBook`: `token` is the stored token, `outcome` what the POST
        settles to. Returns the request sent, if any. */
    method HandleBook(token: Option<string>, outcome: Outcome<()>)
      returns (request: Option<BookingRequest>, toast: Option<Toast>)
      modifies this`loading, this`date, this`showDatePicker
      ensures !LoggedIn(token) ==>
                request == None && toast == None && unchanged(this)
      ensures LoggedIn(token) && old(date) == "" ==>
                request == None && toast == Some(ErrorToast(SelectDate)) && unchanged(this)
      ensures LoggedIn(token) && old(date) != "" ==>
                request == Some(BookingRequest(doctor.id, old(date))) && !loading
      ensures LoggedIn(token) && old(date) != "" && outcome.Resolved? ==>
                && date == "" && !showDatePicker
                && toast == Some(SuccessToast(Booked))
      ensures LoggedIn(token) && old(date) != "" && outcome.Rejected? ==>
                && date == old(date) && showDatePicker == old(showDatePicker)
                && toast == Some(ErrorToast(BookingErrorMessage(outcome.thrown)))
    {
      request, toast := None, None;
      if LoggedIn(token) {
        if date == "" {
          return None, Some(ErrorToast(SelectDate));
        }
        if !LoggedIn(token) {
          // the second "not logged in" check: unreachable inside `if (token)`
          assert false;
        }
        loading := true;
        request := Some(BookingRequest(doctor.id, date));
        match outcome {
          case Resolved(_) =>
            toast := Some(SuccessToast(Booked));
            date := "";
            showDatePicker := false;
          case Rejected(thrown) =>
            toast := Some(ErrorToast(BookingErrorMessage(thrown)));
        }
        loading := false;
      }
    }
  }
}
