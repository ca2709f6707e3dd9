/**
  The patient dashboard's doctor directory: a search term and a specialty selector narrow
  the list of doctors.
 */
module Dashboard {
  import opened Wrappers
  import Sequences
  import Text
  import Auth

  datatype Doctor = Doctor(id: string, name: string, specialty: string, experience: int,
                           location: string, avatar: string, availability: seq<string>,
                           consultationFee: int)

  /** The directory is shown to any signed-in user. */
  predicate AccessGranted(user: Option<Auth.User>)
    ensures user.None? ==> !AccessGranted(user)
    ensures user.Some? ==> AccessGranted(user)
  {
    user.Some?
  }

  /** The selector's choices; the first is the wildcard. */
  const Specialties: seq<string> := [
    "All Specialties", "Cardiology", "Dermatology", "Neurology", "Orthopedics", "Pediatrics",
    "Psychiatry", "General Medicine"
  ]

  /** The lower-cased term occurs in the lower-cased name or specialty. */
  predicate MatchesSearch(d: Doctor, term: string)
    ensures MatchesSearch(d, term) <==>
              (exists k :: Text.OccursAt(Text.Lower(d.name), Text.Lower(term), k)) ||
              (exists k :: Text.OccursAt(Text.Lower(d.specialty), Text.Lower(term), k))
  {
    Text.Contains(Text.Lower(d.name), Text.Lower(term)) ||
    Text.Contains(Text.Lower(d.specialty), Text.Lower(term))
  }

  /** `''` and `'All Specialties'` select every doctor; any other value selects the doctors
      whose specialty is exactly that value (case matters). */
  predicate MatchesSpecialty(d: Doctor, selected: string)
    ensures selected == "" || selected == Specialties[0] ==> MatchesSpecialty(d, selected)
    ensures selected != "" && selected != Specialties[0] ==>
              (MatchesSpecialty(d, selected) <==> d.specialty == selected)
  {
    selected == "" || selected == "All Specialties" || d.specialty == selected
  }

  /** The search ignores the case of the term's ASCII letters. */
  lemma SearchIgnoresCase(d: Doctor, term: string)
    ensures MatchesSearch(d, term) <==> MatchesSearch(d, Text.Lower(term))
  {
    Text.LowerIdempotent(term);
  }

  /** An empty term matches every doctor. */
  lemma EmptyTermMatchesAll(d: Doctor)
    ensures MatchesSearch(d, "")
  {
    Text.ContainsEmpty(Text.Lower(d.name));
  }

  /** Each selector choice other than the wildcard selects by exact specialty. */
  lemma SelectorChoices(d: Doctor)
    ensures MatchesSpecialty(d, Specialties[0])
    ensures forall i :: 1 <= i < |Specialties| ==> (MatchesSpecialty(d, Specialties[i]) <==> d.specialty == Specialties[i])
  {
  }

  /** `filteredDoctors`: the doctors that match both the term and the selector, in directory
      order; every such doctor is there, as often as in the directory, and no other. */
  function FilteredDoctors(doctors: seq<Doctor>, term: string, selected: string): (r: seq<Doctor>)
    ensures Sequences.SubsequenceOf(r, doctors)
    ensures forall i :: 0 <= i < |r| ==> MatchesSearch(r[i], term) && MatchesSpecialty(r[i], selected)
    ensures forall d :: d in doctors && MatchesSearch(d, term) && MatchesSpecialty(d, selected) ==> d in r
    ensures forall d :: multiset(r)[d] ==
              if MatchesSearch(d, term) && MatchesSpecialty(d, selected) then multiset(doctors)[d] else 0
  {
    var p := (d: Doctor) => MatchesSearch(d, term) && MatchesSpecialty(d, selected);
    var r := Sequences.Filter(doctors, p);
    forall d | d in doctors && p(d) ensures d in r {
      Sequences.FilterMembers(doctors, p, d);
    }
    r
  }

  /** With the page's initial inputs (an empty term, no specialty) the whole directory shows. */
  lemma InitialShowsAll(doctors: seq<Doctor>)
    ensures FilteredDoctors(doctors, "", "") == doctors
  {
    forall i | 0 <= i < |doctors| ensures MatchesSearch(doctors[i], "") {
      EmptyTermMatchesAll(doctors[i]);
    }
    Sequences.FilterAll(doctors, (d: Doctor) => MatchesSearch(d, "") && MatchesSpecialty(d, ""));
  }

  /** With the wildcard specialty only the term narrows the list. */
  lemma WildcardIsSearchOnly(doctors: seq<Doctor>, term: string)
    ensures FilteredDoctors(doctors, term, "All Specialties") == FilteredDoctors(doctors, term, "")
    ensures FilteredDoctors(doctors, term, "") == Sequences.Filter(doctors, (d: Doctor) => MatchesSearch(d, term))
  {
    Sequences.FilterExtensional(doctors,
      (d: Doctor) => MatchesSearch(d, term) && MatchesSpecialty(d, "All Specialties"),
      (d: Doctor) => MatchesSearch(d, term) && MatchesSpecialty(d, ""));
    Sequences.FilterExtensional(doctors,
      (d: Doctor) => MatchesSearch(d, term) && MatchesSpecialty(d, ""),
      (d: Doctor) => MatchesSearch(d, term));
  }

  /** The "No doctors found" message shows exactly when the list is loaded and empty. */
  predicate NoDoctorsMessageShown(filtered: seq<Doctor>, isLoading: bool) {
    |filtered| == 0 && !isLoading
  }

  /** Once loaded, the message shows exactly when no doctor matches both inputs. */
  lemma NoDoctorsMessageIff(doctors: seq<Doctor>, term: string, selected: string)
    ensures NoDoctorsMessageShown(FilteredDoctors(doctors, term, selected), false) <==>
              forall d :: d in doctors ==> !(MatchesSearch(d, term) && MatchesSpecialty(d, selected))
  {
    var r := FilteredDoctors(doctors, term, selected);
    if r != [] {
      assert r[0] in r;
      Sequences.FilterMembers(doctors, (d: Doctor) => MatchesSearch(d, term) && MatchesSpecialty(d, selected), r[0]);
    }
  }
}
