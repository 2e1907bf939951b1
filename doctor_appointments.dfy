/** The doctor's appointment list: the status/date filters and the request
    parameters built from them, the fetch that replaces the list, the
    Complete/Cancel actions offered for pending appointments, the patch of
    one appointment's status after the server acknowledges it, the status
    badge and the Prev/Next buttons. */
module DoctorAppointments {
  import opened Api
  import Pager

  datatype Patient = Patient(id: string, name: string, email: string, photoUrl: Option<string>)

  datatype Appointment = Appointment(id: string, patient: Patient, date: string, status: string)

  /** The status strings of this view (note: `COMPLETE`, not `COMPLETED`). */
  const Pending: string := "PENDING"
  const Complete: string := "COMPLETE"
  const Cancelled: string := "CANCELLED"

  /** Values of the status filter dropdown; "" stands for "All Status". */
  const StatusOptions: seq<string> := ["", Pending, Complete, Cancelled]

  /** The only statuses the page forwards to `GET /appointments/doctor`. */
  const ValidGetStatuses: seq<string> := [Pending, Cancelled]

  /** The two actions a doctor can take on an appointment. */
  datatype Action = MarkComplete | Cancel

  function ActionStatus(action: Action): (status: string)
    ensures status == Complete || status == Cancelled
    ensures status != Pending
  {
    match action
    case MarkComplete => Complete
    case Cancel => Cancelled
  }

  /** The body of `PATCH /appointments/update-status`. */
  datatype StatusPatch = StatusPatch(appointmentId: string, status: string)

  /* ---------------- request parameters ---------------- */

  /** Whether a status filter value is forwarded to the server. */
  predicate SendsStatus(statusFilter: string) {
    statusFilter != "" && statusFilter in ValidGetStatuses
  }

  /** What the query parameters of one fetch must be: `page` always,
      `status` exactly when the filter is a forwardable status, `date`
      exactly when the date filter is set, and nothing else. */
  predicate ParamsFor(params: map<string, ParamValue>, page: int, statusFilter: string, dateFilter: string) {
    && params.Keys <= {"page", "status", "date"}
    && "page" in params && params["page"] == Num(page)
    && ("status" in params <==> SendsStatus(statusFilter))
    && ("status" in params ==> params["status"] == Text(statusFilter))
    && ("date" in params <==> dateFilter != "")
    && ("date" in params ==> params["date"] == Text(dateFilter))
  }

  /** Builds the query parameters by adding to a record that starts with
      `page`, as the page does. */
  method BuildParams(page: int, statusFilter: string, dateFilter: string)
    returns (params: map<string, ParamValue>)
    ensures ParamsFor(params, page, statusFilter, dateFilter)
  {
    params := map["page" := Num(page)];
    if statusFilter != "" && statusFilter in ValidGetStatuses {
      params := params["status" := Text(statusFilter)];
    }
    if dateFilter != "" {
      params := params["date" := Text(dateFilter)];
    }
  }

  /** The parameters are determined by the filters: two records that both
      meet `ParamsFor` for the same inputs are the same record. */
  lemma ParamsForDetermined(p1: map<string, ParamValue>, p2: map<string, ParamValue>,
                            page: int, statusFilter: string, dateFilter: string)
    requires ParamsFor(p1, page, statusFilter, dateFilter)
    requires ParamsFor(p2, page, statusFilter, dateFilter)
    ensures p1 == p2
  {
  }

  /** Every dropdown choice but "" and `COMPLETE` reaches the server;
      choosing `COMPLETE` fetches without a status, like "All Status". */
  lemma FilterChoicesForwarded(choice: string)
    requires choice in StatusOptions
    ensures SendsStatus(choice) <==> choice == Pending || choice == Cancelled
    ensures choice == Complete ==> !SendsStatus(choice)
  {
  }

  /* ---------------- list patch and status machine ---------------- */

  /** `prev.map(a => a.id === id ? { ...a, status } : a)`: the list after the
      server acknowledged a status change. */
  function PatchStatus(list: seq<Appointment>, id: string, status: string): (r: seq<Appointment>)
    ensures |r| == |list|
    ensures forall j :: 0 <= j < |list| ==>
              r[j].id == list[j].id && r[j].patient == list[j].patient && r[j].date == list[j].date
    ensures forall j :: 0 <= j < |list| && list[j].id == id ==> r[j].status == status
    ensures forall j :: 0 <= j < |list| && list[j].id != id ==> r[j] == list[j]
  {
    if list == [] then []
    else
      var head := if list[0].id == id then list[0].(status := status) else list[0];
      [head] + PatchStatus(list[1..], id, status)
  }

  /** Patching an id that is not in the list leaves the list as it was. */
  lemma PatchAbsentIdIsIdentity(list: seq<Appointment>, id: string, status: string)
    requires forall j :: 0 <= j < |list| ==> list[j].id != id
    ensures PatchStatus(list, id, status) == list
  {
  }

  /** Applying the same acknowledgement twice changes nothing more. */
  lemma PatchIdempotent(list: seq<Appointment>, id: string, status: string)
    ensures PatchStatus(PatchStatus(list, id, status), id, status) == PatchStatus(list, id, status)
  {
  }

  /** React keys (`key={a.id}`) must be distinct: the list has unique ids. */
  predicate UniqueIds(list: seq<Appointment>) {
    forall i, j :: 0 <= i < j < |list| ==> list[i].id != list[j].id
  }

  /** The Complete and Cancel buttons are rendered only for a pending
      appointment. */
  predicate ActionsShown(a: Appointment) {
    a.status == Pending
  }

  /** ... and are disabled while that appointment's update is in flight. */
  predicate ActionEnabled(a: Appointment, updatingId: Option<string>) {
    ActionsShown(a) && updatingId != Some(a.id)
  }

  /** The status machine the buttons implement: an action on the i-th
      appointment changes the status of that appointment only, from
      `PENDING` to `COMPLETE` or `CANCELLED`, after which no action is
      shown for it any more. */
  lemma OnlyPendingTransitions(list: seq<Appointment>, i: int, action: Action)
    requires UniqueIds(list)
    requires 0 <= i < |list| && ActionsShown(list[i])
    ensures PatchStatus(list, list[i].id, ActionStatus(action))[i].status == ActionStatus(action)
    ensures !ActionsShown(PatchStatus(list, list[i].id, ActionStatus(action))[i])
    ensures forall j :: 0 <= j < |list| && j != i ==>
              PatchStatus(list, list[i].id, ActionStatus(action))[j] == list[j]
  {
    var r := PatchStatus(list, list[i].id, ActionStatus(action));
    forall j | 0 <= j < |list| && j != i
      ensures r[j] == list[j]
    {
      if j < i {
        assert list[j].id != list[i].id;
      } else {
        assert list[i].id != list[j].id;
      }
    }
  }

  /* ---------------- badge ---------------- */

  /** `getStatusClasses`: PENDING yellow, COMPLETE green, CANCELLED red,
      anything else (`COMPLETED` included) gray. */
  function StatusClasses(status: string): (classes: string)
    ensures classes == YellowBadge <==> status == Pending
    ensures classes == GreenBadge <==> status == Complete
    ensures classes == RedBadge <==> status == Cancelled
    ensures classes == GrayBadge <==> status !in {Pending, Complete, Cancelled}
  {
    match status
    case "PENDING" => YellowBadge
    case "COMPLETE" => GreenBadge
    case "CANCELLED" => RedBadge
    case _ => GrayBadge
  }

  /* ---------------- the page ---------------- */

  class DoctorAppointmentsPage {
    var appointments: seq<Appointment>
    var statusFilter: string
    var dateFilter: string
    var page: int
    var totalPages: int
    var loading: bool
    var updatingId: Option<string>

    /** Nothing takes the page below 1. */
    ghost predicate Valid()
      reads this
    {
      page >= 1
    }

    constructor ()
      ensures Valid()
      ensures appointments == [] && statusFilter == "" && dateFilter == ""
      ensures page == 1 && totalPages == 1 && !loading && updatingId == None
    {
      appointments := [];
      statusFilter := "";
      dateFilter := "";
      page := 1;
      totalPages := 1;
      loading := false;
      updatingId := None;
    }

    method SetStatusFilter(value: string)
      modifies this`statusFilter
      ensures statusFilter == value
    {
      statusFilter := value;
    }

    method SetDateFilter(value: string)
      modifies this`dateFilter
      ensures dateFilter == value
    {
      dateFilter := value;
    }

    /** `fetchAppointments`: `token` is the stored token, `outcome` what the
        GET settles to. Returns the query parameters sent, if any. */
    method FetchAppointments(token: Option<string>, outcome: Outcome<Option<ListBody<Appointment>>>)
      returns (request: Option<map<string, ParamValue>>, toast: Option<Toast>)
      requires Valid()
      modifies this`appointments, this`totalPages, this`loading
      ensures Valid()
      ensures !LoggedIn(token) ==>
                && request == None && toast == Some(ErrorToast(NotLoggedIn))
                && appointments == old(appointments) && totalPages == old(totalPages)
                && loading == old(loading)
      ensures LoggedIn(token) ==>
                && request.Some? && ParamsFor(request.value, page, statusFilter, dateFilter)
                && !loading
      ensures LoggedIn(token) && outcome.Resolved? ==>
                && appointments == DataOrEmpty(outcome.body)
                && totalPages == TotalPagesOrOne(outcome.body)
                && toast == None
      ensures LoggedIn(token) && outcome.Rejected? ==>
                && appointments == old(appointments) && totalPages == old(totalPages)
                && toast == Some(ErrorToast(CaughtMessage(outcome.thrown, "Failed to fetch appointments")))
    {
      if !LoggedIn(token) {
        return None, Some(ErrorToast(NotLoggedIn));
      }
      loading := true;
      var params := BuildParams(page, statusFilter, dateFilter);
      request := Some(params);
      match outcome {
        case Resolved(body) =>
          appointments := DataOrEmpty(body);
          totalPages := TotalPagesOrOne(body);
          toast := None;
        case Rejected(thrown) =>
          toast := Some(ErrorToast(CaughtMessage(thrown, "Failed to fetch appointments")));
      }
      loading := false;
    }

    /** `updateStatus`: `confirmed` is the answer to the confirmation
        dialog, `token` the stored token, `outcome` what the PATCH settles
        to. Returns the patch sent, if any. */
    method UpdateStatus(appointmentId: string, action: Action, confirmed: bool,
                        token: Option<string>, outcome: Outcome<()>)
      returns (request: Option<StatusPatch>, toast: Option<Toast>)
      modifies this`appointments, this`updatingId
      ensures !confirmed ==>
                && request == None && toast == None
                && appointments == old(appointments) && updatingId == old(updatingId)
      ensures confirmed && !LoggedIn(token) ==>
                && request == None && toast == Some(ErrorToast(NotLoggedIn))
                && appointments == old(appointments) && updatingId == old(updatingId)
      ensures confirmed && LoggedIn(token) ==>
                && request == Some(StatusPatch(appointmentId, ActionStatus(action)))
                && updatingId == None
      ensures confirmed && LoggedIn(token) && outcome.Resolved? ==>
                && appointments == PatchStatus(old(appointments), appointmentId, ActionStatus(action))
                && toast == Some(SuccessToast("Appointment marked as " + ActionStatus(action)))
      ensures confirmed && LoggedIn(token) && outcome.Rejected? ==>
                && appointments == old(appointments)
                && toast == Some(ErrorToast(CaughtMessage(outcome.thrown, "Failed to update status")))
    {
      if !confirmed {
        return None, None;
      }
      if !LoggedIn(token) {
        return None, Some(ErrorToast(NotLoggedIn));
      }
      var status := ActionStatus(action);
      updatingId := Some(appointmentId);
      request := Some(StatusPatch(appointmentId, status));
      match outcome {
        case Resolved(_) =>
          appointments := PatchStatus(appointments, appointmentId, status);
          toast := Some(SuccessToast("Appointment marked as " + status));
        case Rejected(thrown) =>
          toast := Some(ErrorToast(CaughtMessage(thrown, "Failed to update status")));
      }
      updatingId := None;
    }

    /** A click on the Complete or Cancel button of the i-th card. The
        buttons exist only for a pending appointment and are disabled while
        its update runs; when shown and enabled the click runs
        `updateStatus`. The patch reaches every card that shares the clicked
        card's id and only ever sets `COMPLETE` or `CANCELLED`; when the ids
        are unique, a status changes only on the clicked card and only from
        `PENDING`. */
    method ClickAction(i: int, action: Action, confirmed: bool,
                       token: Option<string>, outcome: Outcome<()>)
      returns (request: Option<StatusPatch>, toast: Option<Toast>)
      requires 0 <= i < |appointments|
      modifies this`appointments, this`updatingId
      ensures |appointments| == |old(appointments)|
      ensures forall j :: 0 <= j < |appointments| && appointments[j] != old(appointments)[j] ==>
                && old(appointments)[j].id == old(appointments)[i].id
                && (appointments[j].status == Complete || appointments[j].status == Cancelled)
      ensures UniqueIds(old(appointments)) ==>
                forall j :: 0 <= j < |appointments| && appointments[j] != old(appointments)[j] ==>
                  j == i && old(appointments)[j].status == Pending
      ensures !ActionEnabled(old(appointments)[i], old(updatingId)) ==>
                request == None && appointments == old(appointments) && updatingId == old(updatingId)
      ensures ActionEnabled(old(appointments)[i], old(updatingId)) && (!confirmed || !LoggedIn(token)) ==>
                request == None && appointments == old(appointments) && updatingId == old(updatingId)
      ensures ActionEnabled(old(appointments)[i], old(updatingId)) && confirmed && LoggedIn(token) ==>
                request == Some(StatusPatch(old(appointments)[i].id, ActionStatus(action))) && updatingId == None
      ensures ActionEnabled(old(appointments)[i], old(updatingId)) && outcome.Rejected? ==>
                appointments == old(appointments)
      ensures ActionEnabled(old(appointments)[i], old(updatingId)) && confirmed && LoggedIn(token)
              && outcome.Resolved? ==>
                appointments == PatchStatus(old(appointments), old(appointments)[i].id, ActionStatus(action))
      ensures request.Some? ==> request.value.appointmentId == old(appointments)[i].id
      ensures !ActionEnabled(old(appointments)[i], old(updatingId)) || !confirmed ==> toast == None
      ensures ActionEnabled(old(appointments)[i], old(updatingId)) && confirmed && !LoggedIn(token) ==>
                toast == Some(ErrorToast(NotLoggedIn))
      ensures ActionEnabled(old(appointments)[i], old(updatingId)) && confirmed && LoggedIn(token) ==>
                toast == (if outcome.Resolved?
                          then Some(SuccessToast("Appointment marked as " + ActionStatus(action)))
                          else Some(ErrorToast(CaughtMessage(outcome.thrown, "Failed to update status"))))
    {
      var a := appointments[i];
      if !ActionEnabled(a, updatingId) {
        return None, None;
      }
      ghost var before := appointments;
      request, toast := UpdateStatus(a.id, action, confirmed, token, outcome);
      if appointments != before {
        assert appointments == PatchStatus(before, a.id, ActionStatus(action));
        if UniqueIds(before) {
          OnlyPendingTransitions(before, i, action);
        }
      }
    }

    method ClickPrev()
      requires Valid()
      modifies this`page
      ensures Valid() && page == Pager.AfterPrev(old(page))
    {
      if Pager.PrevEnabled(page) {
        page := page - 1;
      }
    }

    method ClickNext()
      requires Valid()
      modifies this`page
      ensures Valid() && page == Pager.AfterNext(old(page), totalPages)
    {
      if Pager.NextEnabled(page, totalPages) {
        page := page + 1;
      }
    }
  }
}
