/**
  The appointment record shared by the doctor's schedule and the patient's history,
  its four statuses, the lifecycle both pages' buttons implement, and the per-id
  status update their handlers perform (`prev.map(a => a.id === id ? {...a, status} : a)`).
 */
module Appointments {

  datatype Status = Pending | Scheduled | Completed | Cancelled

  /** The status string the front-end stores and compares against (`'pending'`, ...). */
  function StatusName(s: Status): (name: string)
    ensures name in {"pending", "scheduled", "completed", "cancelled"}
  {
    match s
    case Pending => "pending"
    case Scheduled => "scheduled"
    case Completed => "completed"
    case Cancelled => "cancelled"
  }

  /** Distinct statuses have distinct names, so comparing names compares statuses. */
  lemma StatusNameInjective(s: Status, t: Status)
    ensures StatusName(s) == StatusName(t) <==> s == t
  {
  }

  /** The lifecycle: pending -> scheduled | cancelled, scheduled -> completed | cancelled;
      completed and cancelled are terminal. */
  predicate Successor(from: Status, to: Status) {
    (from == Pending && (to == Scheduled || to == Cancelled)) ||
    (from == Scheduled && (to == Completed || to == Cancelled))
  }

  /** One appointment as a page holds it; `party` carries the fields that differ between the
      doctor's view (the patient) and the patient's view (the doctor and the location). */
  datatype Appointment<P> = Appointment(
    id: string,
    date: string,
    time: string,
    status: Status,
    reason: string,
    consultationFee: int,
    party: P)

  /** Every record has its own id. */
  predicate UniqueIds<P>(xs: seq<Appointment<P>>) {
    forall i, j :: 0 <= i < j < |xs| ==> xs[i].id != xs[j].id
  }

  /** The status handlers' update: every record whose id is `id` gets status `s` and keeps
      all its other fields; every other record is kept as it is; order and length are kept. */
  function SetStatus<P>(xs: seq<Appointment<P>>, id: string, s: Status): (ys: seq<Appointment<P>>)
    ensures |ys| == |xs|
    ensures forall i :: 0 <= i < |xs| ==> ys[i].status == (if xs[i].id == id then s else xs[i].status)
    ensures forall i :: 0 <= i < |xs| ==> ys[i].(status := xs[i].status) == xs[i]
  {
    if xs == [] then []
    else
      var head := if xs[0].id == id then xs[0].(status := s) else xs[0];
      [head] + SetStatus(xs[1..], id, s)
  }

  /** An id that no record carries leaves the list unchanged. */
  lemma SetStatusUnknownId<P>(xs: seq<Appointment<P>>, id: string, s: Status)
    requires forall i :: 0 <= i < |xs| ==> xs[i].id != id
    ensures SetStatus(xs, id, s) == xs
  {
    var ys := SetStatus(xs, id, s);
    forall i | 0 <= i < |xs| ensures ys[i] == xs[i] {
      assert ys[i].(status := xs[i].status) == xs[i];
    }
  }

  /** Applying the same update twice is the same as applying it once. */
  lemma SetStatusIdempotent<P>(xs: seq<Appointment<P>>, id: string, s: Status)
    ensures SetStatus(SetStatus(xs, id, s), id, s) == SetStatus(xs, id, s)
  {
    var ys := SetStatus(xs, id, s);
    var zs := SetStatus(ys, id, s);
    forall i | 0 <= i < |xs| ensures zs[i] == ys[i] {
      assert ys[i].(status := xs[i].status) == xs[i];
      assert zs[i].(status := ys[i].status) == ys[i];
    }
  }

  /** The update keeps the ids, so the records stay the same records, in the same order. */
  lemma SetStatusKeepsIds<P>(xs: seq<Appointment<P>>, id: string, s: Status)
    ensures forall i :: 0 <= i < |xs| ==> SetStatus(xs, id, s)[i].id == xs[i].id
  {
    var ys := SetStatus(xs, id, s);
    forall i | 0 <= i < |xs| ensures ys[i].id == xs[i].id {
      assert ys[i].(status := xs[i].status) == xs[i];
    }
  }
}
