/**
  The patient's appointment history: the status and search filters kept in step with the
  list by the page's effect, the cancel handler, and the buttons each status offers.
 */
module AppointmentHistory {
  import opened Wrappers
  import opened Appointments
  import Sequences
  import Text
  import Auth

  /** The doctor side of a record in the patient's view. */
  datatype DoctorSide = DoctorSide(doctorId: string, doctorName: string, doctorSpecialty: string,
                                   doctorAvatar: string, location: string)

  type Booking = Appointment<DoctorSide>

  /** The history is shown to any signed-in user. */
  predicate AccessGranted(user: Option<Auth.User>)
    ensures user.None? ==> !AccessGranted(user)
    ensures user.Some? ==> AccessGranted(user)
  {
    user.Some?
  }

  /** The status selector's options, as (value, label) pairs. */
  const StatusOptions: seq<(string, string)> := [
    ("all", "All Appointments"),
    ("scheduled", "Scheduled"),
    ("completed", "Completed"),
    ("cancelled", "Cancelled"),
    ("pending", "Pending")
  ]

  /** The selector offers "all" first and then exactly one option per status. */
  lemma StatusOptionsCoverStatuses()
    ensures |StatusOptions| == 5 && StatusOptions[0].0 == "all"
    ensures forall s :: exists i :: 1 <= i < |StatusOptions| && StatusOptions[i].0 == StatusName(s)
    ensures forall i :: 1 <= i < |StatusOptions| ==> exists s :: StatusOptions[i].0 == StatusName(s)
  {
    forall s ensures exists i :: 1 <= i < |StatusOptions| && StatusOptions[i].0 == StatusName(s) {
      match s
      case Scheduled => assert StatusOptions[1].0 == StatusName(s);
      case Completed => assert StatusOptions[2].0 == StatusName(s);
      case Cancelled => assert StatusOptions[3].0 == StatusName(s);
      case Pending => assert StatusOptions[4].0 == StatusName(s);
    }
    assert StatusOptions[1].0 == StatusName(Scheduled);
    assert StatusOptions[2].0 == StatusName(Completed);
    assert StatusOptions[3].0 == StatusName(Cancelled);
    assert StatusOptions[4].0 == StatusName(Pending);
  }

  /** The status filter: "all" passes everything, any other value only the status of that name. */
  predicate StatusMatches(statusFilter: string, a: Booking)
    ensures statusFilter == "all" ==> StatusMatches(statusFilter, a)
    ensures forall s :: statusFilter == StatusName(s) ==> (StatusMatches(statusFilter, a) <==> a.status == s)
  {
    statusFilter == "all" || StatusName(a.status) == statusFilter
  }

  /** The search filter: the lower-cased term occurs in the lower-cased doctor name, specialty
      or reason. */
  predicate SearchMatches(term: string, a: Booking)
    ensures SearchMatches(term, a) <==>
              (exists k :: Text.OccursAt(Text.Lower(a.party.doctorName), Text.Lower(term), k)) ||
              (exists k :: Text.OccursAt(Text.Lower(a.party.doctorSpecialty), Text.Lower(term), k)) ||
              (exists k :: Text.OccursAt(Text.Lower(a.reason), Text.Lower(term), k))
  {
    var t := Text.Lower(term);
    Text.Contains(Text.Lower(a.party.doctorName), t) ||
    Text.Contains(Text.Lower(a.party.doctorSpecialty), t) ||
    Text.Contains(Text.Lower(a.reason), t)
  }

  /** The search ignores the case of the term's ASCII letters. */
  lemma SearchIgnoresCase(term: string, a: Booking)
    ensures SearchMatches(term, a) <==> SearchMatches(Text.Lower(term), a)
  {
    Text.LowerIdempotent(term);
  }

  /** An empty term restricts nothing. */
  lemma EmptySearchMatchesAll(a: Booking)
    ensures SearchMatches("", a)
  {
    Text.ContainsEmpty(Text.Lower(a.party.doctorName));
  }

  /** The filtered list the page shows: the records that pass both filters, in their order;
      every record that passes both is there, as often as in `xs`, and no other. */
  function HistoryView(xs: seq<Booking>, statusFilter: string, term: string): (ys: seq<Booking>)
    ensures Sequences.SubsequenceOf(ys, xs)
    ensures forall i :: 0 <= i < |ys| ==> StatusMatches(statusFilter, ys[i]) && SearchMatches(term, ys[i])
    ensures forall a :: a in xs && StatusMatches(statusFilter, a) && SearchMatches(term, a) ==> a in ys
    ensures forall a :: multiset(ys)[a] ==
              if StatusMatches(statusFilter, a) && SearchMatches(term, a) then multiset(xs)[a] else 0
  {
    var p := (a: Booking) => StatusMatches(statusFilter, a) && SearchMatches(term, a);
    var ys := Sequences.Filter(xs, p);
    forall a | a in xs && p(a) ensures a in ys {
      Sequences.FilterMembers(xs, p, a);
    }
    ys
  }

  /** The page's initial filters show every record. */
  lemma InitialViewShowsAll(xs: seq<Booking>)
    ensures HistoryView(xs, "all", "") == xs
  {
    forall a ensures SearchMatches("", a) {
      EmptySearchMatchesAll(a);
    }
    Sequences.FilterAll(xs, (a: Booking) => StatusMatches("all", a) && SearchMatches("", a));
  }

  /** A record cancelled by id no longer appears under the "scheduled" filter, while every
      other scheduled record that matches the term still does. */
  lemma CancelledLeavesScheduledView(xs: seq<Booking>, id: string, term: string)
    ensures forall a :: a in HistoryView(SetStatus(xs, id, Cancelled), "scheduled", term) ==> a.id != id
    ensures forall a :: a in HistoryView(xs, "scheduled", term) && a.id != id ==>
                          a in HistoryView(SetStatus(xs, id, Cancelled), "scheduled", term)
  {
    var ys := SetStatus(xs, id, Cancelled);
    var v := HistoryView(ys, "scheduled", term);
    forall a | a in v ensures a.id != id {
      var i :| 0 <= i < |v| && v[i] == a;
      assert StatusMatches("scheduled", a);
      Sequences.FilterMembers(ys, (b: Booking) => StatusMatches("scheduled", b) && SearchMatches(term, b), a);
      var j :| 0 <= j < |ys| && ys[j] == a;
    }
    forall a | a in HistoryView(xs, "scheduled", term) && a.id != id ensures a in v {
      Sequences.FilterMembers(xs, (b: Booking) => StatusMatches("scheduled", b) && SearchMatches(term, b), a);
      var j :| 0 <= j < |xs| && xs[j] == a;
      assert ys[j].(status := xs[j].status) == xs[j];
      assert ys[j] == a;
    }
  }

  /** The four records the page's simulated fetch resolves with. */
  const MockAppointments: seq<Booking> := [
    Appointment("1", "2024-01-15", "10:00 AM", Scheduled, "Routine cardiac check-up", 150,
      DoctorSide("1", "Dr. Sarah Johnson", "Cardiology",
        "https://images.pexels.com/photos/5215024/pexels-photo-5215024.jpeg?auto=compress&cs=tinysrgb&w=300&h=300&dpr=1",
        "New York, NY")),
    Appointment("2", "2024-01-10", "2:30 PM", Completed, "Skin consultation for acne treatment", 120,
      DoctorSide("2", "Dr. Michael Chen", "Dermatology",
        "https://images.pexels.com/photos/612608/pexels-photo-612608.jpeg?auto=compress&cs=tinysrgb&w=300&h=300&dpr=1",
        "Los Angeles, CA")),
    Appointment("3", "2024-01-20", "11:30 AM", Pending, "Headache and migraine consultation", 180,
      DoctorSide("3", "Dr. Emily Rodriguez", "Neurology",
        "https://images.pexels.com/photos/1239291/pexels-photo-1239291.jpeg?auto=compress&cs=tinysrgb&w=300&h=300&dpr=1",
        "Chicago, IL")),
    Appointment("4", "2023-12-20", "9:00 AM", Cancelled, "Annual physical examination", 150,
      DoctorSide("1", "Dr. Sarah Johnson", "Cardiology",
        "https://images.pexels.com/photos/5215024/pexels-photo-5215024.jpeg?auto=compress&cs=tinysrgb&w=300&h=300&dpr=1",
        "New York, NY"))
  ]

  /** On the loaded records, the "scheduled" filter shows exactly record "1". */
  lemma MockScheduledIsRecordOne()
    ensures HistoryView(MockAppointments, "scheduled", "") == [MockAppointments[0]]
    ensures MockAppointments[0].id == "1"
  {
    var p := (a: Booking) => StatusMatches("scheduled", a) && SearchMatches("", a);
    EmptySearchMatchesAll(MockAppointments[0]);
    var xs := MockAppointments;
    assert !p(xs[1]) && !p(xs[2]) && !p(xs[3]) && p(xs[0]);
    assert xs[3..][1..] == [];
    assert xs[2..][1..] == xs[3..];
    assert xs[1..][1..] == xs[2..];
    assert Sequences.Filter(xs[3..], p) == [];
    assert Sequences.Filter(xs[2..], p) == [];
    assert Sequences.Filter(xs[1..], p) == [];
    assert Sequences.Filter(xs, p) == [xs[0]];
  }

  /** The buttons of a history entry: only Cancel has a handler. */
  datatype Action = Reschedule | CancelVisit | ViewReport

  /** Scheduled offers Reschedule and Cancel, completed offers View Report; pending shows
      "Awaiting confirmation" and cancelled shows nothing, so neither offers a button. */
  function OfferedActions(s: Status): (actions: seq<Action>)
    ensures CancelVisit in actions <==> s == Scheduled
    ensures s == Pending || s == Cancelled <==> actions == []
  {
    match s
    case Scheduled => [Reschedule, CancelVisit]
    case Completed => [ViewReport]
    case Pending => []
    case Cancelled => []
  }

  /** The only state change the history's buttons make, scheduled -> cancelled, is an edge
      of the lifecycle. */
  lemma CancelVisitIsSuccessor(s: Status)
    requires CancelVisit in OfferedActions(s)
    ensures Successor(s, Cancelled)
  {
  }

  class AppointmentHistoryPage {
    var appointments: seq<Booking>
    var filteredAppointments: seq<Booking>
    var statusFilter: string
    var searchTerm: string
    var isLoading: bool

    /** The effect has run since the last change of any of its inputs. */
    predicate Valid()
      reads this
    {
      filteredAppointments == HistoryView(appointments, statusFilter, searchTerm)
    }

    /** The page as it mounts: nothing loaded, no filters. */
    constructor ()
      ensures Valid()
      ensures appointments == [] && statusFilter == "all" && searchTerm == "" && isLoading
    {
      appointments := [];
      filteredAppointments := [];
      statusFilter := "all";
      searchTerm := "";
      isLoading := true;
    }

    /** The filter effect: start from the whole list, narrow by status unless the filter is
        "all", then narrow by the term unless it is empty. */
    method ApplyFilters()
      modifies this`filteredAppointments
      ensures Valid()
    {
      var filtered := appointments;
      var f, t := statusFilter, searchTerm;
      if f != "all" {
        filtered := Sequences.Filter(filtered, (a: Booking) => StatusName(a.status) == f);
        Sequences.FilterExtensional(appointments, (a: Booking) => StatusName(a.status) == f,
                                    (a: Booking) => StatusMatches(f, a));
      } else {
        Sequences.FilterAll(appointments, (a: Booking) => StatusMatches(f, a));
      }
      assert filtered == Sequences.Filter(appointments, (a: Booking) => StatusMatches(f, a));
      var q := (a: Booking) => SearchMatches(t, a);
      if t != "" {
        filtered := Sequences.Filter(filtered, q);
      } else {
        forall a ensures q(a) { EmptySearchMatchesAll(a); }
        Sequences.FilterAll(filtered, q);
      }
      Sequences.FilterFilter(appointments, (a: Booking) => StatusMatches(f, a), q,
                             (a: Booking) => StatusMatches(f, a) && SearchMatches(t, a));
      filteredAppointments := filtered;
    }

    /** The fetch effect, given the records the fetch resolves with (`MockAppointments` in
        this front-end): the list and the shown list are set to them, and the filter effect
        runs because the list changed. */
    method Load(fetched: seq<Booking>)
      modifies this
      ensures Valid()
      ensures appointments == fetched && !isLoading
      ensures statusFilter == old(statusFilter) && searchTerm == old(searchTerm)
    {
      appointments := fetched;
      filteredAppointments := fetched;
      isLoading := false;
      ApplyFilters();
    }

    /** Choosing a value in the status selector. */
    method SetStatusFilter(value: string)
      modifies this
      ensures Valid() && statusFilter == value
      ensures appointments == old(appointments) && searchTerm == old(searchTerm)
      ensures isLoading == old(isLoading)
    {
      statusFilter := value;
      ApplyFilters();
    }

    /** Typing in the search box. */
    method SetSearchTerm(value: string)
      modifies this
      ensures Valid() && searchTerm == value
      ensures appointments == old(appointments) && statusFilter == old(statusFilter)
      ensures isLoading == old(isLoading)
    {
      searchTerm := value;
      ApplyFilters();
    }

    /** `handleCancelAppointment`; `confirmed` is the answer to the confirmation dialog. When
        it is declined nothing changes, so the effect does not run. */
    method CancelAppointment(id: string, confirmed: bool)
      requires Valid()
      modifies this
      ensures Valid()
      ensures appointments == if confirmed then SetStatus(old(appointments), id, Cancelled)
                              else old(appointments)
      ensures statusFilter == old(statusFilter) && searchTerm == old(searchTerm)
      ensures isLoading == old(isLoading)
    {
      if confirmed {
        appointments := SetStatus(appointments, id, Cancelled);
        ApplyFilters();
      }
    }
  }
}
