/** The patient's appointment list: the status filter, the fetch that
    replaces the list, the status badge and the Prev/Next buttons. */
module PatientAppointments {
  import opened Api
  import Pager

  datatype Doctor = Doctor(id: string, name: string, specialization: string, photoUrl: Option<string>)

  datatype Appointment = Appointment(id: string, doctor: Doctor, date: string, status: string)

  /** The status strings of this view (note: `COMPLETED`, not `COMPLETE`). */
  const Pending: string := "PENDING"
  const Completed: string := "COMPLETED"
  const Cancelled: string := "CANCELLED"

  /** Values of the status filter dropdown; "" stands for "All". */
  const StatusOptions: seq<string> := ["", Pending, Completed, Cancelled]

  /** `{ status: status || undefined, page }`: an empty filter is left out
      (undefined parameters are not sent), any other value goes verbatim;
      `page` is always sent. */
  function RequestParams(status: string, page: int): (params: map<string, ParamValue>)
    ensures params.Keys <= {"page", "status"}
    ensures "page" in params && params["page"] == Num(page)
    ensures "status" in params <==> status != ""
    ensures "status" in params ==> params["status"] == Text(status)
  {
    if status == "" then map["page" := Num(page)]
    else map["status" := Text(status), "page" := Num(page)]
  }

  /** Every dropdown choice but "All" reaches the server as it is. */
  lemma FilterChoicesForwarded(choice: string, page: int)
    requires choice in StatusOptions && choice != ""
    ensures RequestParams(choice, page)["status"] == Text(choice)
  {
  }

  /** The badge switch: PENDING yellow, COMPLETED green, CANCELLED red,
      anything else (`COMPLETE` included) gray. */
  function StatusClasses(status: string): (classes: string)
    ensures classes == YellowBadge <==> status == Pending
    ensures classes == GreenBadge <==> status == Completed
    ensures classes == RedBadge <==> status == Cancelled
    ensures classes == GrayBadge <==> status !in {Pending, Completed, Cancelled}
  {
    match status
    case "PENDING" => YellowBadge
    case "COMPLETED" => GreenBadge
    case "CANCELLED" => RedBadge
    case _ => GrayBadge
  }

  class PatientAppointmentsPage {
    var appointments: seq<Appointment>
    var status: string
    var page: int
    var totalPages: int
    var loading: bool

    /** Nothing takes the page below 1. */
    ghost predicate Valid()
      reads this
    {
      page >= 1
    }

    constructor ()
      ensures Valid()
      ensures appointments == [] && status == "" && page == 1 && totalPages == 1 && !loading
    {
      appointments := [];
      status := "";
      page := 1;
      totalPages := 1;
      loading := false;
    }

    method SetStatus(value: string)
      modifies this`status
      ensures status == value
    {
      status := value;
    }

    /** `fetchAppointments`: `token` is the stored token, `outcome` what the
        GET settles to. Returns the query parameters sent, if any. */
    method FetchAppointments(token: Option<string>, outcome: Outcome<Option<ListBody<Appointment>>>)
      returns (request: Option<map<string, ParamValue>>, toast: Option<Toast>)
      requires Valid()
      modifies this`appointments, this`totalPages, this`loading
      ensures Valid()
      ensures !LoggedIn(token) ==>
                && request == None && toast == Some(ErrorToast(NotLoggedIn))
                && appointments == old(appointments) && totalPages == old(totalPages)
                && loading == old(loading)
      ensures LoggedIn(token) ==> request == Some(RequestParams(status, page)) && !loading
      ensures LoggedIn(token) && outcome.Resolved? ==>
                && appointments == DataOrEmpty(outcome.body)
                && totalPages == TotalPagesOrOne(outcome.body)
                && toast == None
      ensures LoggedIn(token) && outcome.Rejected? ==>
                && appointments == old(appointments) && totalPages == old(totalPages)
                && toast == Some(ErrorToast(CaughtMessage(outcome.thrown, "Failed to fetch appointments")))
    {
      if !LoggedIn(token) {
        return None, Some(ErrorToast(NotLoggedIn));
      }
      loading := true;
      request := Some(RequestParams(status, page));
      match outcome {
        case Resolved(body) =>
          var appts := DataOrEmpty(body);
          appointments := appts;
          totalPages := TotalPagesOrOne(body);
          toast := None;
        case Rejected(thrown) =>
          toast := Some(ErrorToast(CaughtMessage(thrown, "Failed to fetch appointments")));
      }
      loading := false;
    }

    method ClickPrev()
      requires Valid()
      modifies this`page
      ensures Valid() && page == Pager.AfterPrev(old(page))
    {
      if Pager.PrevEnabled(page) {
        page := page - 1;
      }
    }

    method ClickNext()
      requires Valid()
      modifies this`page
      ensures Valid() && page == Pager.AfterNext(old(page), totalPages)
    {
      if Pager.NextEnabled(page, totalPages) {
        page := page + 1;
      }
    }
  }
}
