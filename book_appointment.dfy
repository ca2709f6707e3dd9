/**
  The booking form: the fixed slot table, slot selection, submission with its validation
  and in-flight flag, and the submit button's disabled condition. The two-second simulated
  request splits a submission into the part before the wait (`HandleSubmit`) and the part
  after it (`FinishSubmit`). Booking creates no appointment record.
 */
module BookAppointment {
  import opened Wrappers
  import Text
  import Auth

  datatype TimeSlot = TimeSlot(time: string, available: bool)

  /** The form is shown to any signed-in user. */
  predicate AccessGranted(user: Option<Auth.User>)
    ensures user.None? ==> !AccessGranted(user)
    ensures user.Some? ==> AccessGranted(user)
  {
    user.Some?
  }

  /** The slot table the form renders. */
  const TimeSlots: seq<TimeSlot> := [
    TimeSlot("09:00 AM", true),
    TimeSlot("09:30 AM", false),
    TimeSlot("10:00 AM", true),
    TimeSlot("10:30 AM", true),
    TimeSlot("11:00 AM", false),
    TimeSlot("11:30 AM", true),
    TimeSlot("02:00 PM", true),
    TimeSlot("02:30 PM", true),
    TimeSlot("03:00 PM", false),
    TimeSlot("03:30 PM", true),
    TimeSlot("04:00 PM", true),
    TimeSlot("04:30 PM", true)
  ]

  /** `time` is the time of a slot that can be booked. */
  predicate Bookable(time: string) {
    exists i :: 0 <= i < |TimeSlots| && TimeSlots[i].time == time && TimeSlots[i].available
  }

  /** The table has twelve slots, and the unavailable ones are exactly those at 09:30 AM,
      11:00 AM and 03:00 PM. */
  lemma SlotTable()
    ensures |TimeSlots| == 12
    ensures forall i :: 0 <= i < |TimeSlots| ==> (!TimeSlots[i].available <==> i in {1, 4, 8})
    ensures TimeSlots[1].time == "09:30 AM" && TimeSlots[4].time == "11:00 AM"
    ensures TimeSlots[8].time == "03:00 PM"
    ensures forall i :: 0 <= i < |TimeSlots| ==> |TimeSlots[i].time| == 8
  {
  }

  /** 10:00 AM can be booked; the three unavailable times cannot, and neither can the empty
      selection. */
  lemma BookableExamples()
    ensures Bookable("10:00 AM") && !Bookable("")
    ensures !Bookable("09:30 AM") && !Bookable("11:00 AM") && !Bookable("03:00 PM")
  {
    assert TimeSlots[2].time == "10:00 AM" && TimeSlots[2].available;
    forall i | 0 <= i < |TimeSlots| && TimeSlots[i].available
      ensures TimeSlots[i].time != "09:30 AM" && TimeSlots[i].time != "11:00 AM"
      ensures TimeSlots[i].time != "03:00 PM"
    {
      assert TimeSlots[i].time[1] != '9' || TimeSlots[i].time[3] != '3';
      assert TimeSlots[i].time[1] != '1' || TimeSlots[i].time[3] != '0';
      assert TimeSlots[i].time[1] != '3' || TimeSlots[i].time[3] != '0';
    }
  }

  /** The doctor shown on the form: the route's id, with `'1'` when the route gives none
      (or an empty one, which `doctorId || '1'` also replaces). */
  function DoctorIdFor(routeId: Option<string>): (id: string)
    ensures id != ""
    ensures routeId.Some? && routeId.value != "" ==> id == routeId.value
    ensures routeId == None || routeId == Some("") ==> id == "1"
  {
    if routeId.Some? && routeId.value != "" then routeId.value else "1"
  }

  datatype Doctor = Doctor(id: string, name: string, specialty: string, consultationFee: int,
                           avatar: string)

  /** The doctor the form's simulated fetch resolves with. */
  function FetchedDoctor(routeId: Option<string>): (d: Doctor)
    ensures d.id == DoctorIdFor(routeId) && d.consultationFee == 150
  {
    Doctor(DoctorIdFor(routeId), "Dr. Sarah Johnson", "Cardiology", 150,
           "https://images.pexels.com/photos/5215024/pexels-photo-5215024.jpeg?auto=compress&cs=tinysrgb&w=300&h=300&dpr=1")
  }

  /** A submission passes validation (`selectedTime` and `reason.trim()` both non-empty): a
      time is selected and the reason has a character that is not white space. */
  predicate CanSubmit(selectedTime: string, reason: string)
    ensures CanSubmit(selectedTime, reason) <==>
              selectedTime != "" && exists i :: 0 <= i < |reason| && !Text.IsSpace(reason[i])
  {
    Text.TrimEmptyIffBlank(reason);
    selectedTime != "" && Text.Trim(reason) != ""
  }

  /** What a press of the submit button leads to. */
  datatype SubmitResult =
    | Ignored   // the button is disabled
    | Rejected  // validation failed: the alert asks for a time and a reason
    | Started   // the request is in flight

  class BookingForm {
    const doctorRoute: Option<string>
    var doctor: Option<Doctor>
    var selectedDate: string
    var selectedTime: string
    var reason: string
    var isLoading: bool
    var isSubmitting: bool

    /** The selected time is empty or the time of a bookable slot. */
    predicate Valid()
      reads this
      ensures Valid() ==> selectedTime != "09:30 AM" && selectedTime != "11:00 AM"
      ensures Valid() ==> selectedTime != "03:00 PM"
    {
      BookableExamples();
      selectedTime == "" || Bookable(selectedTime)
    }

    /** The form as it mounts on day `today` for the route's doctor id. */
    constructor (routeId: Option<string>, today: string)
      ensures Valid()
      ensures doctorRoute == routeId && doctor == None && selectedDate == today
      ensures selectedTime == "" && reason == "" && isLoading && !isSubmitting
    {
      doctorRoute := routeId;
      doctor := None;
      selectedDate := today;
      selectedTime := "";
      reason := "";
      isLoading := true;
      isSubmitting := false;
    }

    /** The fetch effect. */
    method LoadDoctor()
      modifies this
      ensures doctor == Some(FetchedDoctor(doctorRoute)) && !isLoading
      ensures selectedDate == old(selectedDate) && selectedTime == old(selectedTime)
      ensures reason == old(reason) && isSubmitting == old(isSubmitting)
    {
      doctor := Some(FetchedDoctor(doctorRoute));
      isLoading := false;
    }

    /** A click on slot `k` of the table: it selects that slot's time only when the slot is
        available, and otherwise changes nothing. */
    method ClickSlot(k: nat)
      requires Valid() && k < |TimeSlots|
      modifies this
      ensures Valid()
      ensures selectedTime == if TimeSlots[k].available then TimeSlots[k].time else old(selectedTime)
      ensures doctor == old(doctor) && selectedDate == old(selectedDate) && reason == old(reason)
      ensures isLoading == old(isLoading) && isSubmitting == old(isSubmitting)
    {
      if TimeSlots[k].available {
        selectedTime := TimeSlots[k].time;
      }
    }

    /** A click on one of the week's days. */
    method ClickDate(date: string)
      modifies this
      ensures selectedDate == date
      ensures doctor == old(doctor) && selectedTime == old(selectedTime) && reason == old(reason)
      ensures isLoading == old(isLoading) && isSubmitting == old(isSubmitting)
    {
      selectedDate := date;
    }

    /** Typing in the reason box. */
    method EditReason(text: string)
      modifies this
      ensures reason == text
      ensures doctor == old(doctor) && selectedDate == old(selectedDate) && selectedTime == old(selectedTime)
      ensures isLoading == old(isLoading) && isSubmitting == old(isSubmitting)
    {
      reason := text;
    }

    /** The submit button's `disabled` condition. */
    predicate SubmitDisabled()
      reads this
      ensures SubmitDisabled() <==> isSubmitting || !CanSubmit(selectedTime, reason)
    {
      isSubmitting || selectedTime == "" || Text.Trim(reason) == ""
    }

    /** `handleSubmit` up to the wait: an invalid form is refused with an alert and no state
        change; a valid one marks the request in flight. It does not itself look at
        `isSubmitting`. */
    method HandleSubmit() returns (result: SubmitResult)
      modifies this
      ensures result != Ignored
      ensures result == Started <==> CanSubmit(old(selectedTime), old(reason))
      ensures isSubmitting == (if result == Started then true else old(isSubmitting))
      ensures doctor == old(doctor) && selectedDate == old(selectedDate)
      ensures selectedTime == old(selectedTime) && reason == old(reason) && isLoading == old(isLoading)
    {
      if selectedTime == "" || Text.Trim(reason) == "" {
        result := Rejected;
        return;
      }
      isSubmitting := true;
      result := Started;
    }

    /** `handleSubmit` after the wait: success or failure, the request is no longer in flight.
        `failed` says whether the awaited request rejected; the result is the alert shown. */
    method FinishSubmit(failed: bool) returns (message: string)
      requires isSubmitting
      modifies this
      ensures !isSubmitting
      ensures message == if failed then "Failed to book appointment. Please try again."
                         else "Appointment booked successfully! You will receive a confirmation email shortly."
      ensures doctor == old(doctor) && selectedDate == old(selectedDate)
      ensures selectedTime == old(selectedTime) && reason == old(reason) && isLoading == old(isLoading)
    {
      if failed {
        message := "Failed to book appointment. Please try again.";
      } else {
        message := "Appointment booked successfully! You will receive a confirmation email shortly.";
      }
      isSubmitting := false;
    }

    /** A press of the submit button: a disabled button does nothing, so while a request is in
        flight a second press starts nothing; an enabled button always passes validation. */
    method PressSubmit() returns (result: SubmitResult)
      modifies this
      ensures old(SubmitDisabled()) <==> result == Ignored
      ensures result != Rejected
      ensures old(isSubmitting) ==> result == Ignored && isSubmitting
      ensures result == Started ==> isSubmitting
      ensures old(SubmitDisabled()) ==> isSubmitting == old(isSubmitting)
      ensures doctor == old(doctor) && selectedDate == old(selectedDate)
      ensures selectedTime == old(selectedTime) && reason == old(reason) && isLoading == old(isLoading)
    {
      if SubmitDisabled() {
        result := Ignored;
      } else {
        result := HandleSubmit();
      }
    }
  }

  /** A double click on a valid form: the first press starts the request, the second one,
      arriving while it is in flight, is ignored; when the request fails the form stays on
      screen and its button is enabled again. */
  method DoubleClickStartsOnce(k: nat, text: string)
    returns (first: SubmitResult, second: SubmitResult, enabledAfter: bool)
    requires k < |TimeSlots| && TimeSlots[k].available && Text.Trim(text) != ""
    ensures first == Started && second == Ignored && enabledAfter
  {
    SlotTable();
    var form := new BookingForm(None, "today");
    form.ClickSlot(k);
    form.EditReason(text);
    assert !form.isSubmitting && form.selectedTime != "" && form.reason == text;
    assert !form.SubmitDisabled();
    first := form.PressSubmit();
    assert first == Started && form.isSubmitting;
    second := form.PressSubmit();
    assert form.selectedTime != "" && form.reason == text;
    var _ := form.FinishSubmit(true);
    enabledAfter := !form.SubmitDisabled();
  }
}
