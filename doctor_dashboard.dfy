/**
  The doctor's dashboard: the day's schedule, the confirm / complete / cancel handlers,
  the buttons each status offers, and the doctor-only gate.
 */
module DoctorDashboard {
  import opened Wrappers
  import opened Appointments
  import Sequences
  import Auth

  /** The patient side of a record in the doctor's view. */
  datatype Patient = Patient(name: string, email: string)

  type Visit = Appointment<Patient>

  /** The view is shown only to a signed-in doctor. */
  predicate AccessGranted(user: Option<Auth.User>)
    ensures user.None? ==> !AccessGranted(user)
    ensures user.Some? ==> (AccessGranted(user) <==> user.value.role == Auth.Doctor)
  {
    user.Some? && user.value.role == Auth.Doctor
  }

  /** The four records the page loads, all dated `today`. */
  function MockSchedule(today: string): (xs: seq<Visit>)
    ensures |xs| == 4 && UniqueIds(xs)
    ensures forall i :: 0 <= i < |xs| ==> xs[i].date == today && xs[i].consultationFee == 150
  {
    [ Appointment("1", today, "09:00 AM", Scheduled, "Routine cardiac check-up", 150,
                  Patient("John Smith", "john.smith@email.com")),
      Appointment("2", today, "10:30 AM", Pending, "Chest pain consultation", 150,
                  Patient("Emma Johnson", "emma.johnson@email.com")),
      Appointment("3", today, "02:00 PM", Scheduled, "Follow-up appointment", 150,
                  Patient("Michael Brown", "michael.brown@email.com")),
      Appointment("4", today, "03:30 PM", Completed, "Annual physical examination", 150,
                  Patient("Sarah Davis", "sarah.davis@email.com")) ]
  }

  /** `todayAppointments`: the records dated `date`, in their original order; every record
      with that date is there, as often as in `xs`, and no other. */
  function DayAppointments(xs: seq<Visit>, date: string): (ys: seq<Visit>)
    ensures Sequences.SubsequenceOf(ys, xs)
    ensures forall i :: 0 <= i < |ys| ==> ys[i].date == date
    ensures forall a :: a in xs && a.date == date ==> a in ys
    ensures forall a :: multiset(ys)[a] == if a.date == date then multiset(xs)[a] else 0
  {
    var ys := Sequences.Filter(xs, (a: Visit) => a.date == date);
    forall a | a in xs && a.date == date ensures a in ys {
      Sequences.FilterMembers(xs, (a: Visit) => a.date == date, a);
    }
    ys
  }

  /** On the day it was loaded, the mock schedule shows all of its records. */
  lemma MockScheduleAllToday(today: string)
    ensures DayAppointments(MockSchedule(today), today) == MockSchedule(today)
  {
    Sequences.FilterAll(MockSchedule(today), (a: Visit) => a.date == today);
  }

  /** The buttons of a schedule entry. */
  datatype Action = Confirm | Decline | Complete | Cancel

  /** The buttons each status renders: pending offers Confirm and Decline, scheduled offers
      Complete and Cancel, completed and cancelled offer none. */
  function OfferedActions(s: Status): (actions: seq<Action>)
    ensures |actions| <= 2
    ensures s == Completed || s == Cancelled <==> actions == []
  {
    match s
    case Pending => [Confirm, Decline]
    case Scheduled => [Complete, Cancel]
    case Completed => []
    case Cancelled => []
  }

  /** The status an action's handler writes. */
  function Target(a: Action): Status {
    match a
    case Confirm => Scheduled
    case Decline => Cancelled
    case Complete => Completed
    case Cancel => Cancelled
  }

  /** The buttons offer exactly the lifecycle's edges: a status offers a button leading to
      `t` if and only if `t` is a successor of that status. */
  lemma OfferedActionsAreSuccessors(s: Status, t: Status)
    ensures (exists a :: a in OfferedActions(s) && Target(a) == t) <==> Successor(s, t)
  {
    if Successor(s, t) {
      var a := match t
        case Scheduled => Confirm
        case Completed => Complete
        case _ => if s == Pending then Decline else Cancel;
      assert a in OfferedActions(s) && Target(a) == t;
    }
  }

  /** What pressing `a` on the entry `id` does to the list: Confirm and Complete update at
      once; Decline and Cancel go through the same handler, which updates only when the
      confirmation dialog is accepted. */
  function Press(xs: seq<Visit>, id: string, a: Action, confirmed: bool): (ys: seq<Visit>)
    ensures (a == Decline || a == Cancel) && !confirmed ==> ys == xs
    ensures a == Confirm || a == Complete || confirmed ==> ys == SetStatus(xs, id, Target(a))
  {
    match a
    case Confirm => SetStatus(xs, id, Scheduled)
    case Complete => SetStatus(xs, id, Completed)
    case _ => if confirmed then SetStatus(xs, id, Cancelled) else xs
  }

  /** With unique ids, pressing a button that entry `k` offers changes entry `k` only, and
      only along a lifecycle edge (or not at all, when the dialog is declined). The handlers
      themselves check nothing: the lifecycle holds because of which buttons are rendered. */
  lemma PressFollowsLifecycle(xs: seq<Visit>, k: int, a: Action, confirmed: bool)
    requires UniqueIds(xs) && 0 <= k < |xs|
    requires a in OfferedActions(xs[k].status)
    ensures var ys := Press(xs, xs[k].id, a, confirmed);
      |ys| == |xs| &&
      (forall i :: 0 <= i < |xs| && i != k ==> ys[i] == xs[i]) &&
      ys[k].(status := xs[k].status) == xs[k] &&
      (ys[k].status == xs[k].status || Successor(xs[k].status, ys[k].status))
  {
  }

  /** Without unique ids the rendering does not protect the lifecycle: completing the
      scheduled entry `"1"` also completes a pending entry that shares its id. */
  lemma SharedIdBreaksLifecycle(p: Patient)
    ensures var xs := [Appointment("1", "d", "09:00 AM", Scheduled, "r", 150, p),
                       Appointment("1", "d", "10:30 AM", Pending, "r", 150, p)];
      Complete in OfferedActions(xs[0].status) &&
      !Successor(xs[1].status, Press(xs, "1", Complete, true)[1].status)
  {
  }

  class DoctorDashboardPage {
    var appointments: seq<Visit>
    var selectedDate: string
    var isLoading: bool

    /** The page as it mounts on day `today`. */
    constructor (today: string)
      ensures appointments == [] && selectedDate == today && isLoading
    {
      appointments := [];
      selectedDate := today;
      isLoading := true;
    }

    /** The fetch effect, completed on day `today`. */
    method Load(today: string)
      modifies this
      ensures appointments == MockSchedule(today) && !isLoading
      ensures selectedDate == old(selectedDate)
    {
      appointments := MockSchedule(today);
      isLoading := false;
    }

    /** `handleConfirmAppointment`. */
    method ConfirmAppointment(id: string)
      modifies this
      ensures appointments == SetStatus(old(appointments), id, Scheduled)
      ensures selectedDate == old(selectedDate) && isLoading == old(isLoading)
    {
      appointments := SetStatus(appointments, id, Scheduled);
    }

    /** `handleCompleteAppointment`. */
    method CompleteAppointment(id: string)
      modifies this
      ensures appointments == SetStatus(old(appointments), id, Completed)
      ensures selectedDate == old(selectedDate) && isLoading == old(isLoading)
    {
      appointments := SetStatus(appointments, id, Completed);
    }

    /** `handleCancelAppointment`; `confirmed` is the answer to the confirmation dialog. */
    method CancelAppointment(id: string, confirmed: bool)
      modifies this
      ensures appointments == if confirmed then SetStatus(old(appointments), id, Cancelled)
                              else old(appointments)
      ensures selectedDate == old(selectedDate) && isLoading == old(isLoading)
    {
      if confirmed {
        appointments := SetStatus(appointments, id, Cancelled);
      }
    }

    /** The button press of the schedule, routed to its handler. */
    method PressButton(id: string, a: Action, confirmed: bool)
      modifies this
      ensures appointments == Press(old(appointments), id, a, confirmed)
      ensures selectedDate == old(selectedDate) && isLoading == old(isLoading)
    {
      match a
      case Confirm => ConfirmAppointment(id);
      case Complete => CompleteAppointment(id);
      case Decline => CancelAppointment(id, confirmed);
      case Cancel => CancelAppointment(id, confirmed);
    }

    /** The schedule the page renders. */
    function TodayAppointments(): seq<Visit>
      reads this
    {
      DayAppointments(appointments, selectedDate)
    }
  }
}
