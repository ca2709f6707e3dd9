# DocSpot booking front-end: a Dafny model of its state handling

DocSpot is a React single-page application for booking medical appointments. All of its
data is mock data, so its behaviour is the state handling of a few components: the session
store (`AuthContext`), the doctor's schedule, the patient's appointment history, the booking
form, the doctor directory search, the admin approval queue and the navigation bar. This
project models those rules in Dafny and proves what each of them promises.

## Modules

- `Wrappers`: `Option` (for `null`) and `Outcome` (for a resolved or rejected promise).
- `Text`: the string operations the components use. These are `trim` with ECMAScript's
  white-space set, ASCII `toLowerCase`, `includes`, and `split(c)[0]`.
- `Sequences`: `Array.prototype.filter` as `Filter`. Its contract says the result is the
  order-preserving subsequence of exactly the satisfying elements. There are lemmas that
  fuse two filters and that a filter true everywhere changes nothing.
- `Appointments`: the four statuses and the lifecycle relation `Successor`. It also holds
  the record shared by both appointment views (`Appointment<P>`, where `P` holds the fields
  the views do not share) and `SetStatus`, the per-id status update all handlers perform.
- `Auth`: the class `SessionStore`, with fields `user`, `isLoading` and the storage slot.
  Its methods are `Restore`, `Login`, `Register` and `Logout`. The module also has reload
  scenarios.
- `DoctorDashboard`, `AppointmentHistory`, `BookAppointment`, `Dashboard`, `AdminDashboard`
  and `Navbar`: one module per page or component. A page or component whose handlers update its React
  state is a class with that state as fields: `DoctorDashboardPage`, `AppointmentHistoryPage`,
  `BookingForm`, `AdminDashboardPage` and `NavbarState`. Each also has pure functions for its
  filters, button gating and access gate. The doctor directory (`Dashboard`) only stores
  what its inputs set, so it has no class: its search term, specialty and doctor list are
  parameters of `FilteredDoctors`.

Each page's access gate is a predicate `AccessGranted`. Pages open to any signed-in user
require a user. The doctor and admin pages also require that role. The lemma
`Navbar.DashboardLinkIsGranted` ties these gates to the navbar's links.

Effects and handlers are modelled as one atomic step each. The one exception is the
booking submission: there the state while the request is in flight matters, so it has a
before-the-wait step and an after-the-wait step.

The lifecycle is pending to scheduled or cancelled, and scheduled to completed or
cancelled. Nothing in the code rejects other transitions. The handlers set the status
unconditionally, and the lifecycle holds only because of which buttons each status renders.
The model follows the code. `DoctorDashboard.PressFollowsLifecycle` proves that pressing a
rendered button follows a lifecycle edge when record ids are unique.
`DoctorDashboard.SharedIdBreaksLifecycle` shows that this fails for duplicate ids. Booking
an appointment creates no record in the code, so the model creates none either.

## Model

| member | source | states |
|---|---|---|
| `Text.Trim` | src/pages/BookAppointment.tsx:75 | `trim` yields an infix of the input that neither starts nor ends with white space, and everything before and after it is white space |
| `Text.Lower` | src/pages/Dashboard.tsx:119-120 | `toLowerCase` keeps the length, lowers each character in place and leaves no ASCII capital |
| `Text.LowerIdempotent` | src/pages/Dashboard.tsx:119-120 | lower-casing twice equals lower-casing once |
| `Text.Contains` | src/pages/Dashboard.tsx:119-120 | `includes` holds iff the term occurs at some position of the string |
| `Text.BeforeFirst` | src/contexts/AuthContext.tsx:50 | `split(c)[0]` is the longest prefix without `c`, followed in the input by `c` when shorter than it |
| `Sequences.Filter` | src/pages/AppointmentHistory.tsx:108 | `filter` gives a subsequence of the input whose elements all satisfy the predicate, keeping every occurrence of every satisfying value and no other |
| `Sequences.FilterFilter` | src/pages/AppointmentHistory.tsx:105-117 | two successive filters equal one filter by the conjunction |
| `Sequences.FilterAll` | src/pages/AppointmentHistory.tsx:107-111 | a filter that every element passes returns the list unchanged |
| `Appointments.StatusName` | src/pages/AppointmentHistory.tsx:14 | each status has one of the four status strings as its name |
| `Appointments.StatusNameInjective` | src/pages/AppointmentHistory.tsx:108 | comparing status names compares statuses |
| `Appointments.SetStatus` | src/pages/DoctorDashboard.tsx:95-101 | the per-id update keeps length and order; a record with the id gets the new status and keeps every other field; other records keep their status |
| `Appointments.SetStatusUnknownId` | src/pages/DoctorDashboard.tsx:96-99 | an id no record carries leaves the list unchanged |
| `Appointments.SetStatusIdempotent` | src/pages/DoctorDashboard.tsx:96-99 | applying the same update twice equals applying it once |
| `Appointments.SetStatusKeepsIds` | src/pages/DoctorDashboard.tsx:96-99 | the update keeps every record's id in place |
| `Auth.EmailName` | src/contexts/AuthContext.tsx:50 | the display name is the email's longest `@`-free prefix; the whole email when it has no `@` |
| `Auth.EmailNameOfAddress` | src/contexts/AuthContext.tsx:50 | for `local@domain` with an `@`-free local part, the display name is the local part |
| `Auth.LoginUser` | src/contexts/AuthContext.tsx:48-54 | the synthesised user has the given id, email and role, the derived name and the default avatar |
| `Auth.RegisterUser` | src/contexts/AuthContext.tsx:71-77 | the registered user is the login user with the supplied name instead |
| `Auth.SessionStore.constructor` | src/contexts/AuthContext.tsx:30-31 | the provider mounts with no user and loading |
| `Auth.SessionStore.Restore` | src/contexts/AuthContext.tsx:33-40 | a stored user becomes the current user, otherwise the user is kept; loading ends; storage unchanged |
| `Auth.SessionStore.Login` | src/contexts/AuthContext.tsx:42-63 | the user is the login user; storage equals it when the write succeeds and is unchanged when it throws ("Login failed"); loading ends in every outcome |
| `Auth.SessionStore.Register` | src/contexts/AuthContext.tsx:65-86 | as login with the supplied name and "Registration failed" |
| `Auth.SessionStore.Logout` | src/contexts/AuthContext.tsx:88-91 | no user and an empty slot; loading flag untouched |
| `Auth.ReloadAfterLogin` | src/contexts/AuthContext.tsx:33-63 | from any stored session, after a persisted login a reload restores exactly the logged-in user |
| `Auth.ReloadAfterRegister` | src/contexts/AuthContext.tsx:65-86 | after a persisted registration, a reload restores exactly the registered user |
| `Auth.LogoutThenReload` | src/contexts/AuthContext.tsx:88-91 | logging out twice equals logging out once; the slot is empty and a reload restores no user |
| `DoctorDashboard.MockSchedule` | src/pages/DoctorDashboard.tsx:43-84 | four records with distinct ids, all dated today, fee 150 |
| `DoctorDashboard.AccessGranted` | src/pages/DoctorDashboard.tsx:145 | the schedule is denied while signed out; a signed-in user gets it iff the role is doctor |
| `DoctorDashboard.DayAppointments` | src/pages/DoctorDashboard.tsx:141-143 | `todayAppointments` is the order-preserving subsequence of exactly the records with the selected date, each as often as in the list, so its length is the card's count |
| `DoctorDashboard.MockScheduleAllToday` | src/pages/DoctorDashboard.tsx:43-143 | on the day it loads, the schedule shows every mock record |
| `DoctorDashboard.OfferedActions` | src/pages/DoctorDashboard.tsx:290-329 | completed and cancelled entries offer no button; the others offer at most two |
| `DoctorDashboard.OfferedActionsAreSuccessors` | src/pages/DoctorDashboard.tsx:290-329 | a status offers a button leading to `t` iff `t` is its lifecycle successor |
| `DoctorDashboard.Press` | src/pages/DoctorDashboard.tsx:290-324 | Confirm and Complete update at once; Decline and Cancel update only when the dialog is accepted, else nothing changes |
| `DoctorDashboard.PressFollowsLifecycle` | src/pages/DoctorDashboard.tsx:290-324 | with unique ids, a rendered button changes only its own entry, only its status, and only along a lifecycle edge |
| `DoctorDashboard.SharedIdBreaksLifecycle` | src/pages/DoctorDashboard.tsx:104-112 | with a shared id, Complete on a scheduled entry also completes a pending one, off the lifecycle |
| `DoctorDashboard.DoctorDashboardPage.constructor` | src/pages/DoctorDashboard.tsx:27-29 | the page mounts with no records, today's date, loading |
| `DoctorDashboard.DoctorDashboardPage.Load` | src/pages/DoctorDashboard.tsx:31-92 | the fetch sets the mock schedule and ends loading |
| `DoctorDashboard.DoctorDashboardPage.ConfirmAppointment` | src/pages/DoctorDashboard.tsx:94-102 | the list becomes `SetStatus(old, id, scheduled)` |
| `DoctorDashboard.DoctorDashboardPage.CompleteAppointment` | src/pages/DoctorDashboard.tsx:104-112 | the list becomes `SetStatus(old, id, completed)` |
| `DoctorDashboard.DoctorDashboardPage.CancelAppointment` | src/pages/DoctorDashboard.tsx:114-124 | confirmed: the list becomes `SetStatus(old, id, cancelled)`; declined: unchanged |
| `DoctorDashboard.DoctorDashboardPage.PressButton` | src/pages/DoctorDashboard.tsx:290-324 | each button runs its handler, giving `Press` of the old list |
| `AppointmentHistory.AccessGranted` | src/pages/AppointmentHistory.tsx:149 | the history is denied while signed out and shown to every signed-in user |
| `AppointmentHistory.StatusMatches` | src/pages/AppointmentHistory.tsx:107-109 | `all` passes every record; the option named after a status passes exactly the records with that status |
| `AppointmentHistory.SearchMatches` | src/pages/AppointmentHistory.tsx:111-117 | the lower-cased term occurs at some position of the lower-cased doctor name, specialty or reason |
| `AppointmentHistory.SearchIgnoresCase` | src/pages/AppointmentHistory.tsx:111-117 | the search gives the same answer for a term and its lower-cased form |
| `AppointmentHistory.StatusOptionsCoverStatuses` | src/pages/AppointmentHistory.tsx:28-34 | the selector offers `all` first and then exactly one option per status |
| `AppointmentHistory.EmptySearchMatchesAll` | src/pages/AppointmentHistory.tsx:111-117 | an empty term restricts nothing |
| `AppointmentHistory.HistoryView` | src/pages/AppointmentHistory.tsx:104-119 | the shown list is the order-preserving subsequence of exactly the records passing both the status and the search filter, each as often as in the list |
| `AppointmentHistory.InitialViewShowsAll` | src/pages/AppointmentHistory.tsx:24-25 | the initial filters show every record |
| `AppointmentHistory.CancelledLeavesScheduledView` | src/pages/AppointmentHistory.tsx:137-147 | after a cancel, the scheduled view holds nothing with that id and still holds every other scheduled match |
| `AppointmentHistory.MockScheduledIsRecordOne` | src/pages/AppointmentHistory.tsx:41-94 | on the mock data, filtering by `scheduled` yields exactly record `1` |
| `AppointmentHistory.OfferedActions` | src/pages/AppointmentHistory.tsx:276-300 | Cancel is offered iff the status is scheduled; pending and cancelled offer no button |
| `AppointmentHistory.CancelVisitIsSuccessor` | src/pages/AppointmentHistory.tsx:277-289 | the history's only state change, scheduled to cancelled, is a lifecycle edge |
| `AppointmentHistory.AppointmentHistoryPage.constructor` | src/pages/AppointmentHistory.tsx:22-26 | the page mounts empty with filter `all`, empty term, loading, and the shown list in step |
| `AppointmentHistory.AppointmentHistoryPage.ApplyFilters` | src/pages/AppointmentHistory.tsx:104-120 | the two conditional filters produce `HistoryView` of the current inputs |
| `AppointmentHistory.AppointmentHistoryPage.Load` | src/pages/AppointmentHistory.tsx:36-102 | the fetch sets the list and ends loading; the shown list is in step |
| `AppointmentHistory.AppointmentHistoryPage.SetStatusFilter` | src/pages/AppointmentHistory.tsx:188 | a new status filter is applied to the shown list |
| `AppointmentHistory.AppointmentHistoryPage.SetSearchTerm` | src/pages/AppointmentHistory.tsx:178 | a new term is applied to the shown list |
| `AppointmentHistory.AppointmentHistoryPage.CancelAppointment` | src/pages/AppointmentHistory.tsx:137-147 | confirmed: the list becomes `SetStatus(old, id, cancelled)` and the shown list is recomputed; declined: nothing changes |
| `BookAppointment.AccessGranted` | src/pages/BookAppointment.tsx:94 | the form is denied while signed out and shown to every signed-in user |
| `BookAppointment.SlotTable` | src/pages/BookAppointment.tsx:33-46 | twelve slots; the unavailable ones are exactly 09:30 AM, 11:00 AM and 03:00 PM |
| `BookAppointment.BookableExamples` | src/pages/BookAppointment.tsx:33-46 | 10:00 AM is bookable; 09:30 AM, 11:00 AM, 03:00 PM and the empty selection are not |
| `BookAppointment.DoctorIdFor` | src/pages/BookAppointment.tsx:54 | a missing or empty route id becomes `1`; any other is kept |
| `BookAppointment.FetchedDoctor` | src/pages/BookAppointment.tsx:53-59 | the fetched doctor has the route's id (defaulted) and fee 150 |
| `BookAppointment.CanSubmit` | src/pages/BookAppointment.tsx:75 | validation passes iff a time is selected and the reason has a non-white-space character |
| `BookAppointment.BookingForm.Valid` | src/pages/BookAppointment.tsx:215-216 | the selected time is empty or bookable, so never one of the three unavailable times |
| `BookAppointment.BookingForm.SubmitDisabled` | src/pages/BookAppointment.tsx:285 | the button is disabled iff a request is in flight or validation would refuse the form |
| `BookAppointment.BookingForm.constructor` | src/pages/BookAppointment.tsx:25-31 | the form mounts with no time, no reason, not submitting, loading |
| `BookAppointment.BookingForm.LoadDoctor` | src/pages/BookAppointment.tsx:48-66 | the fetch sets the doctor for the route id and ends loading |
| `BookAppointment.BookingForm.ClickSlot` | src/pages/BookAppointment.tsx:215-216 | a click selects the slot's time only if it is available; the selection stays empty or bookable |
| `BookAppointment.BookingForm.ClickDate` | src/pages/BookAppointment.tsx:186 | a day click sets the date only |
| `BookAppointment.BookingForm.EditReason` | src/pages/BookAppointment.tsx:241 | typing sets the reason only |
| `BookAppointment.BookingForm.HandleSubmit` | src/pages/BookAppointment.tsx:73-80 | the request starts iff validation passes and then sets `isSubmitting`; a refusal changes nothing |
| `BookAppointment.BookingForm.FinishSubmit` | src/pages/BookAppointment.tsx:82-92 | after the wait `isSubmitting` is false whether the request succeeded or failed, with the matching alert |
| `BookAppointment.BookingForm.PressSubmit` | src/pages/BookAppointment.tsx:283-289 | a disabled button does nothing, so a press while the request is in flight starts nothing; an enabled one always passes validation |
| `BookAppointment.DoubleClickStartsOnce` | src/pages/BookAppointment.tsx:285 | on a valid form the first press starts the request, the second is ignored, and after a failed request the form's button is enabled again |
| `Dashboard.AccessGranted` | src/pages/Dashboard.tsx:126 | the directory is denied while signed out and shown to every signed-in user |
| `Dashboard.MatchesSearch` | src/pages/Dashboard.tsx:119-120 | the lower-cased term occurs at some position of the lower-cased name or specialty |
| `Dashboard.SearchIgnoresCase` | src/pages/Dashboard.tsx:119-120 | the search gives the same answer for a term and its lower-cased form |
| `Dashboard.MatchesSpecialty` | src/pages/Dashboard.tsx:121-122 | `''` and `All Specialties` match every doctor; any other value matches exactly the doctors with that specialty |
| `Dashboard.EmptyTermMatchesAll` | src/pages/Dashboard.tsx:119-120 | an empty term matches every doctor |
| `Dashboard.SelectorChoices` | src/pages/Dashboard.tsx:25-34 | `All Specialties` matches every doctor; each other choice matches exactly the doctors of that specialty |
| `Dashboard.FilteredDoctors` | src/pages/Dashboard.tsx:118-124 | the list is the order-preserving subsequence of exactly the doctors matching both term and selector, each as often as in the directory |
| `Dashboard.InitialShowsAll` | src/pages/Dashboard.tsx:21-22 | with the initial empty inputs, the whole directory shows |
| `Dashboard.WildcardIsSearchOnly` | src/pages/Dashboard.tsx:121-122 | `All Specialties` and `''` give the same list, which is the search filter alone |
| `Dashboard.NoDoctorsMessageIff` | src/pages/Dashboard.tsx:261 | once loaded, "No doctors found" shows iff no doctor matches both inputs |
| `AdminDashboard.AccessGranted` | src/pages/AdminDashboard.tsx:90 | the queue is denied while signed out; a signed-in user gets it iff the role is admin |
| `AdminDashboard.CountId` | src/pages/AdminDashboard.tsx:79 | the count of applications with the id is zero iff none carries it |
| `AdminDashboard.RemoveById` | src/pages/AdminDashboard.tsx:79 | removal keeps the others in order, leaves no application with the id, and shortens the queue by the number of matches |
| `AdminDashboard.FilterLength` | src/pages/AdminDashboard.tsx:79 | the filtered queue is shorter by exactly the number of matching applications |
| `AdminDashboard.RemoveAbsentId` | src/pages/AdminDashboard.tsx:79 | removing an absent id leaves the queue unchanged |
| `AdminDashboard.RemoveIdempotent` | src/pages/AdminDashboard.tsx:85 | removing the same id twice equals removing it once |
| `AdminDashboard.ApproveSecondMock` | src/pages/AdminDashboard.tsx:43-68 | on the mock queue, approving `2` leaves applications `1` and `3` in order |
| `AdminDashboard.AdminDashboardPage.constructor` | src/pages/AdminDashboard.tsx:26-27 | the page mounts with an empty queue, loading |
| `AdminDashboard.AdminDashboardPage.Load` | src/pages/AdminDashboard.tsx:29-76 | the fetch sets the queue and ends loading |
| `AdminDashboard.AdminDashboardPage.ApproveDoctor` | src/pages/AdminDashboard.tsx:78-82 | the queue becomes `RemoveById(old, id)` with the approval alert |
| `AdminDashboard.AdminDashboardPage.RejectDoctor` | src/pages/AdminDashboard.tsx:84-88 | the same change to the queue as approval, with the rejection alert |
| `Navbar.DashboardLink` | src/components/Navbar.tsx:18-28 | the link is one of `/dashboard`, `/admin`, `/doctor-dashboard`, and `/dashboard` when no user is signed in |
| `Navbar.DashboardLinkIsGranted` | src/components/Navbar.tsx:18-28 | for a signed-in user the link is `/admin` iff admin, `/doctor-dashboard` iff doctor, otherwise `/dashboard` for a patient; each is a page that grants that user access |
| `Navbar.Links` | src/components/Navbar.tsx:44-57 | Home always comes first; Dashboard and Appointments follow iff a user is signed in |
| `Navbar.UserLinksIffSignedIn` | src/components/Navbar.tsx:47-56 | a Dashboard or Appointments link is shown iff a user is signed in |
| `Navbar.NavbarState.constructor` | src/components/Navbar.tsx:9-10 | both drop-downs start closed |
| `Navbar.NavbarState.ToggleProfile` | src/components/Navbar.tsx:64 | the profile drop-down flips, the menu is untouched |
| `Navbar.NavbarState.ToggleMenu` | src/components/Navbar.tsx:122 | the mobile menu flips, the profile is untouched |
| `Navbar.NavbarState.CloseProfile` | src/components/Navbar.tsx:84 | a profile link closes the profile drop-down |
| `Navbar.NavbarState.CloseMenu` | src/components/Navbar.tsx:137 | a menu link closes the mobile menu |
| `Navbar.NavbarState.HandleLogout` | src/components/Navbar.tsx:12-16 | the session is cleared, the route is `/`, the profile closes and the menu is untouched |
| `Navbar.LogoutFromProfile` | src/components/Navbar.tsx:12-16 | a signed-in doctor sees Home, Dashboard (`/doctor-dashboard`) and Appointments; after logout only Home, with the profile closed |

## Left out

- Rendering, CSS classes, `getStatusColor`, icons, statistics cards and ratings are presentational. `Dashboard.Doctor` therefore has no `rating` field.
- Timers and `async`/`await`: each effect and handler is one atomic step. The exception is the booking submission, which is split at its wait. The loading flag that `login` and `register` raise during their wait is not observable in the model.
- `localStorage` and JSON: the slot is an `Option<User>`. `JSON.parse` on malformed data throws in the source, and the model has no malformed slot to represent.
- `Auth.SessionStore.Login` and `Auth.SessionStore.Register` take the random id as a parameter. They take a flag for whether the storage write succeeds, since that write is the one call in the `try` block that can throw.
- Roles are a closed enumeration. The unchecked `role as ...` cast, which lets any string through, is not modelled.
- `window.confirm` is a boolean parameter. `alert` texts are returned values. `navigate` is the returned route in `HandleLogout`; other navigations are not modelled.
- Dates are opaque strings compared by equality. date-fns formatting, `getWeekDays` and `new Date()` are left out.
- `toLowerCase` lowers ASCII letters only. `trim` uses the full ECMAScript white-space and line-terminator set.
- `AppointmentHistory.AppointmentHistoryPage.Load` and `AdminDashboard.AdminDashboardPage.Load` take the fetched records as a parameter. The mock values are `MockAppointments` and `MockPendingDoctors`, and lemmas about them are stated separately.
- The documents upload field and the booking form's selected date have no logic beyond being stored. Reschedule and View Report buttons have no handler.
- `Dashboard`: the directory's `searchTerm`, `selectedSpecialty`, `doctors` and `isLoading` state is not a class. Its setters only store their argument, so the model passes those values to `FilteredDoctors` and `NoDoctorsMessageShown` directly.
- src/pages/Home.tsx, src/pages/DoctorProfile.tsx and src/App.tsx are static content and router wiring. They are not part of this model.
