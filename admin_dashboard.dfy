/**
  The admin dashboard's approval queue: approving or rejecting a pending doctor removes it
  from the queue. The view is admin-only.
 */
module AdminDashboard {
  import opened Wrappers
  import Sequences
  import Auth

  datatype PendingDoctor = PendingDoctor(id: string, name: string, email: string, specialty: string,
                                         experience: int, submittedAt: string)

  /** The view is shown only to a signed-in admin. */
  predicate AccessGranted(user: Option<Auth.User>)
    ensures user.None? ==> !AccessGranted(user)
    ensures user.Some? ==> (AccessGranted(user) <==> user.value.role == Auth.Admin)
  {
    user.Some? && user.value.role == Auth.Admin
  }

  /** The applications the page's simulated fetch resolves with. */
  const MockPendingDoctors: seq<PendingDoctor> := [
    PendingDoctor("1", "Dr. James Wilson", "james.wilson@email.com", "Orthopedics", 8, "2024-01-10"),
    PendingDoctor("2", "Dr. Maria Garcia", "maria.garcia@email.com", "Pediatrics", 12, "2024-01-09"),
    PendingDoctor("3", "Dr. Robert Kim", "robert.kim@email.com", "Psychiatry", 6, "2024-01-08")
  ]

  /** How many queued applications carry `id`. */
  function CountId(xs: seq<PendingDoctor>, id: string): (n: nat)
    ensures n <= |xs|
    ensures n == 0 <==> forall i :: 0 <= i < |xs| ==> xs[i].id != id
  {
    if xs == [] then 0 else (if xs[0].id == id then 1 else 0) + CountId(xs[1..], id)
  }

  /** `prev.filter(d => d.id !== id)`: the queue without the applications carrying `id`, the
      rest in their order; it is shorter by exactly the number of those applications. */
  function RemoveById(xs: seq<PendingDoctor>, id: string): (ys: seq<PendingDoctor>)
    ensures Sequences.SubsequenceOf(ys, xs)
    ensures forall i :: 0 <= i < |ys| ==> ys[i].id != id
    ensures forall d :: d in xs && d.id != id ==> d in ys
    ensures |ys| == |xs| - CountId(xs, id)
  {
    var p := (d: PendingDoctor) => d.id != id;
    var ys := Sequences.Filter(xs, p);
    forall d | d in xs && p(d) ensures d in ys {
      Sequences.FilterMembers(xs, p, d);
    }
    FilterLength(xs, id);
    ys
  }

  /** The length of the id filter, by induction on the queue. */
  lemma {:induction false} FilterLength(xs: seq<PendingDoctor>, id: string)
    ensures |Sequences.Filter(xs, (d: PendingDoctor) => d.id != id)| == |xs| - CountId(xs, id)
  {
    if xs != [] {
      FilterLength(xs[1..], id);
    }
  }

  /** Removing an id that no application carries leaves the queue unchanged. */
  lemma RemoveAbsentId(xs: seq<PendingDoctor>, id: string)
    requires forall i :: 0 <= i < |xs| ==> xs[i].id != id
    ensures RemoveById(xs, id) == xs
  {
    Sequences.FilterAll(xs, (d: PendingDoctor) => d.id != id);
  }

  /** Removing the same id twice is removing it once. */
  lemma RemoveIdempotent(xs: seq<PendingDoctor>, id: string)
    ensures RemoveById(RemoveById(xs, id), id) == RemoveById(xs, id)
  {
    RemoveAbsentId(RemoveById(xs, id), id);
  }

  /** On the loaded queue, approving "2" leaves the other two applications in order. */
  lemma ApproveSecondMock()
    ensures RemoveById(MockPendingDoctors, "2") == [MockPendingDoctors[0], MockPendingDoctors[2]]
  {
    var xs := MockPendingDoctors;
    var p := (d: PendingDoctor) => d.id != "2";
    assert xs[1..][1..] == xs[2..];
    assert xs[2..][1..] == [];
    assert Sequences.Filter(xs[2..], p) == [xs[2]];
    assert Sequences.Filter(xs[1..], p) == [xs[2]];
  }

  class AdminDashboardPage {
    var pendingDoctors: seq<PendingDoctor>
    var isLoading: bool

    /** The page as it mounts. */
    constructor ()
      ensures pendingDoctors == [] && isLoading
    {
      pendingDoctors := [];
      isLoading := true;
    }

    /** The fetch effect, given the applications it resolves with (`MockPendingDoctors`). */
    method Load(fetched: seq<PendingDoctor>)
      modifies this
      ensures pendingDoctors == fetched && !isLoading
    {
      pendingDoctors := fetched;
      isLoading := false;
    }

    /** `handleApproveDoctor`; the result is the alert shown. */
    method ApproveDoctor(id: string) returns (message: string)
      modifies this
      ensures pendingDoctors == RemoveById(old(pendingDoctors), id)
      ensures isLoading == old(isLoading)
      ensures message == "Doctor approved successfully!"
    {
      pendingDoctors := RemoveById(pendingDoctors, id);
      message := "Doctor approved successfully!";
    }

    /** `handleRejectDoctor`: the same change to the queue as approval, another alert. */
    method RejectDoctor(id: string) returns (message: string)
      modifies this
      ensures pendingDoctors == RemoveById(old(pendingDoctors), id)
      ensures isLoading == old(isLoading)
      ensures message == "Doctor application rejected."
    {
      pendingDoctors := RemoveById(pendingDoctors, id);
      message := "Doctor application rejected.";
    }
  }
}
