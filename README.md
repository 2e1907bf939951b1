# Clinic appointment client — a Dafny model of its page logic

The client is a set of browser pages over a remote REST API. Patients browse
doctors and book appointments. Doctors see their appointments and mark them
complete or cancelled. This project models the logic that lives in those
pages, with every server response, the stored token and every confirmation
dialog as an input:

- **Doctor appointments** (`DoctorAppointments`). The status and date filters
  and the query parameters built from them. The fetch replaces the list. The
  Complete/Cancel actions are offered only for `PENDING` appointments. After
  the server acknowledges a change, every entry with that id has its status
  patched; with unique ids that is the clicked appointment alone.
  Also the status badge and the Prev/Next buttons.
- **Patient appointments** (`PatientAppointments`). The status filter, the
  fetch, the badge and the Prev/Next buttons. This view spells the completed
  state `COMPLETED`; the doctor view spells it `COMPLETE`. Both spellings are
  kept, and `StatusBadges` states where the two badge switches differ.
- **Doctor directory** (`DoctorsList`). The page size follows the window
  width (12 or 6). The `URLSearchParams` of the query, its cache key, the
  page count `ceil(total / limit)`, the numbered page buttons and the
  clamped Prev/Next buttons. No query runs before the page size is known.
- **Stores**. `Search` holds the search filter store (`query`,
  `specialization`). `Auth` holds the role store (`patient` / `doctor`).
  Both are classes whose setters overwrite one field. The pure functions
  `Search.Step`/`Search.Run` and `Auth.RoleAfter` carry the last-write-wins
  lemmas.
- **Form schemas** (`AuthSchema`). Patient and doctor registration and login,
  as functions that return the set of failing fields. The email and URL tests
  of the validation library are a `Library` parameter.
- **Doctor card** (`Booking`). The date picker and the booking handler: its
  guards, the request it sends, and how it resets `date`, `showDatePicker`
  and `loading`.

`Api` holds the shared pieces: `Option`, parameter values, thrown values,
settled outcomes, toasts, and the `|| []` / `|| 1` fallbacks of a list
response. `Pager` holds the Prev/Next rule of the two appointment lists.
`Roles` holds the role enum. `Types` holds the directory's `Doctor`.

Handlers are class methods. Their inputs are the stored token
(`Option<string>`; `Api.LoggedIn` reads it the way the pages test it for
truthiness, so a missing token and an empty one both mean "not logged in"),
the answer of `window.confirm` (`bool`), the window width,
and the `Outcome` that the awaited call settles to: `Resolved(body)` or
`Rejected(thrown)`. Each handler returns the request it sends (`None` when it
sends nothing) and the toast it raises.

## Model

| member | source | states |
|---|---|---|
| Api.DataOrEmpty | app/dashboard/doctor/appointments/page.tsx:66 | after a response the list is the response's `data` array when present (even empty), else `[]` |
| Api.TotalPagesOrOne | app/dashboard/doctor/appointments/page.tsx:67 | the page count is never 0: a missing or zero `totalPages` becomes 1, any other value is kept |
| Api.CaughtMessage | app/dashboard/doctor/appointments/page.tsx:68-70 | a caught `Error` reports its own message, anything else the handler's fallback text |
| Pager.AfterPrev | app/dashboard/doctor/appointments/page.tsx:216-222 | Prev moves back one page only when `page > 1`, so a page ≥ 1 stays ≥ 1 |
| Pager.AfterNext | app/dashboard/doctor/appointments/page.tsx:226-232 | Next moves forward one page only when `page < totalPages`, so a move never passes `totalPages` |
| Pager.MovesStayInRange | app/dashboard/doctor/appointments/page.tsx:216-232 | from a page in 1..totalPages both enabled moves stay in 1..totalPages |
| Pager.MovesKeepPageFloor | app/dashboard/patient/appointments/page.tsx:121-136 | whatever `totalPages` the server reports, Prev and Next never take the page below 1 |
| DoctorAppointments.ActionStatus | app/dashboard/doctor/appointments/page.tsx:81-84 | an action sets `COMPLETE` or `CANCELLED`, never `PENDING` |
| DoctorAppointments.BuildParams | app/dashboard/doctor/appointments/page.tsx:53-59 | `page` is always sent; `status` exactly when the filter is `PENDING` or `CANCELLED`; `date` exactly when the date filter is set; no other key |
| DoctorAppointments.ParamsForDetermined | app/dashboard/doctor/appointments/page.tsx:53-59 | the parameter rules pin the record down: two records that satisfy them for the same filters are equal |
| DoctorAppointments.FilterChoicesForwarded | app/dashboard/doctor/appointments/page.tsx:23-31 | of the dropdown values only `PENDING` and `CANCELLED` reach the server; `COMPLETE` fetches like "All Status" |
| DoctorAppointments.PatchStatus | app/dashboard/doctor/appointments/page.tsx:99-101 | the patch keeps length, order, ids, patients and dates; entries with the id get the new status; all other entries are unchanged |
| DoctorAppointments.PatchAbsentIdIsIdentity | app/dashboard/doctor/appointments/page.tsx:99-101 | patching an id that is not in the list leaves the list unchanged |
| DoctorAppointments.PatchIdempotent | app/dashboard/doctor/appointments/page.tsx:99-101 | applying the same acknowledgement twice equals applying it once |
| DoctorAppointments.OnlyPendingTransitions | app/dashboard/doctor/appointments/page.tsx:191-208 | with unique ids, an action on a pending card changes that card only, from `PENDING` to `COMPLETE`/`CANCELLED`, and no action is shown for it afterwards |
| DoctorAppointments.StatusClasses | app/dashboard/doctor/appointments/page.tsx:112-123 | the badge is yellow exactly for `PENDING`, green exactly for `COMPLETE`, red exactly for `CANCELLED`, gray for every other string |
| DoctorAppointments.DoctorAppointmentsPage.constructor | app/dashboard/doctor/appointments/page.tsx:34-40 | initial state: empty list, no filters, page 1 of 1, not loading, no update in flight |
| DoctorAppointments.DoctorAppointmentsPage.SetStatusFilter | app/dashboard/doctor/appointments/page.tsx:133 | the status filter takes the chosen value |
| DoctorAppointments.DoctorAppointmentsPage.SetDateFilter | app/dashboard/doctor/appointments/page.tsx:146 | the date filter takes the chosen value |
| DoctorAppointments.DoctorAppointmentsPage.FetchAppointments | app/dashboard/doctor/appointments/page.tsx:43-74 | no token or an empty one: no request, an error toast, state unchanged; otherwise the parameters follow the filters and `loading` ends false; a response replaces the list and the page count through the fallbacks; a failure keeps them and reports the message |
| DoctorAppointments.DoctorAppointmentsPage.UpdateStatus | app/dashboard/doctor/appointments/page.tsx:81-109 | declined confirmation, or a missing or empty token: no request, list and `updatingId` unchanged; otherwise the PATCH carries the id and status, `updatingId` ends null, and only an acknowledgement patches the list |
| DoctorAppointments.DoctorAppointmentsPage.ClickAction | app/dashboard/doctor/appointments/page.tsx:191-208 | a click on a card's Complete/Cancel button only changes entries that share that card's id, and only to `COMPLETE`/`CANCELLED`; when the ids are unique, it changes at most that card, and only from `PENDING`; a hidden or disabled button sends nothing and changes nothing; on an enabled button, a declined dialog or a missing or empty token sends nothing and leaves the list and `updatingId` as they were, a confirmed logged-in click sends the PATCH of that card's id and the action's status and ends with `updatingId` null, a failed PATCH leaves the list unchanged, and an acknowledged one yields exactly the `prev.map` patch; no toast when the button is hidden or disabled or the dialog is declined, the not-logged-in toast for a missing or empty token, otherwise the success text or the caught error message |
| DoctorAppointments.DoctorAppointmentsPage.ClickPrev | app/dashboard/doctor/appointments/page.tsx:216-222 | the page becomes `AfterPrev(page)` and stays ≥ 1 |
| DoctorAppointments.DoctorAppointmentsPage.ClickNext | app/dashboard/doctor/appointments/page.tsx:226-232 | the page becomes `AfterNext(page, totalPages)` and stays ≥ 1 |
| PatientAppointments.RequestParams | app/dashboard/patient/appointments/page.tsx:38 | `page` is always sent; `status` is sent verbatim exactly when the filter is non-empty; no other key |
| PatientAppointments.FilterChoicesForwarded | app/dashboard/patient/appointments/page.tsx:62-71 | every dropdown choice other than "All" reaches the server as it is |
| PatientAppointments.StatusClasses | app/dashboard/patient/appointments/page.tsx:81-94 | the badge is yellow exactly for `PENDING`, green exactly for `COMPLETED`, red exactly for `CANCELLED`, gray for every other string |
| PatientAppointments.PatientAppointmentsPage.constructor | app/dashboard/patient/appointments/page.tsx:22-26 | initial state: empty list, no filter, page 1 of 1, not loading |
| PatientAppointments.PatientAppointmentsPage.SetStatus | app/dashboard/patient/appointments/page.tsx:64 | the status filter takes the chosen value |
| PatientAppointments.PatientAppointmentsPage.FetchAppointments | app/dashboard/patient/appointments/page.tsx:28-51 | no token or an empty one: no request, an error toast, state unchanged; otherwise the request carries the filter parameters and `loading` ends false; a response replaces the list wholesale, with the fallbacks; a failure keeps it |
| PatientAppointments.PatientAppointmentsPage.ClickPrev | app/dashboard/patient/appointments/page.tsx:121-127 | the page becomes `AfterPrev(page)` and stays ≥ 1 |
| PatientAppointments.PatientAppointmentsPage.ClickNext | app/dashboard/patient/appointments/page.tsx:131-137 | the page becomes `AfterNext(page, totalPages)` and stays ≥ 1 |
| StatusBadges.BadgesDisagreeOnlyOnCompletion | app/dashboard/patient/appointments/page.tsx:82-94 | the two badge switches give the same classes for every status except `COMPLETE` and `COMPLETED`, which each view shows gray when it is the other view's spelling |
| Roles.Name | stores/auth.store.ts:4-5 | a role's name is `"patient"` or `"doctor"` |
| Roles.Parse | schemas/auth.schema.ts:25 | the enum accepts exactly `"patient"` and `"doctor"` |
| Roles.ParseName | schemas/auth.schema.ts:25 | parsing and naming are inverse in both directions |
| Auth.RoleAfterIsLastWrite | stores/auth.store.ts:10 | after a series of `setRole` calls the role is the one written last, or unchanged for none |
| Auth.SetRoleIdempotent | stores/auth.store.ts:10 | writing the same role twice equals writing it once |
| Auth.AuthStore.RoleName | stores/auth.store.ts:4-5 | the stored role is always `"patient"` or `"doctor"` and parses back to itself |
| Auth.AuthStore.constructor | stores/auth.store.ts:9 | the initial role is `"patient"` |
| Auth.AuthStore.SetRole | stores/auth.store.ts:10 | `setRole(r)` makes the role `r`, which is `RoleAfter` of the old role and the single write `[r]` |
| Search.Step | stores/search.store.ts:13-14 | each setter writes its own field and leaves the other unchanged |
| Search.LastWriteWins | stores/search.store.ts:13-14 | after any series of setter calls, each field holds the value its setter wrote last, or its earlier value if that setter was not called |
| Search.StepIdempotent | stores/search.store.ts:13-14 | each setter is idempotent |
| Search.SettersCommute | stores/search.store.ts:13-14 | setting query then specialization equals setting them in the other order |
| Search.SearchStore.constructor | stores/search.store.ts:11-12 | initial state: empty query and empty specialization |
| Search.SearchStore.SetQuery | stores/search.store.ts:13 | `query` becomes `q` and `specialization` is unchanged |
| Search.SearchStore.SetSpecialization | stores/search.store.ts:14 | `specialization` becomes `s` and `query` is unchanged |
| DoctorsList.LimitFor | app/dashboard/patient/doctorslist/page.tsx:19-22 | the page size is 12 exactly from width 1024 up and 6 exactly below; always positive |
| DoctorsList.LimitMonotone | app/dashboard/patient/doctorslist/page.tsx:19-22 | a wider window never gives a smaller page size |
| DoctorsList.Set | app/dashboard/patient/doctorslist/page.tsx:38-39 | `set` makes the name map to the value, leaves every other name's lookup unchanged, and appends when the name is absent |
| DoctorsList.QueryPairsLookups | app/dashboard/patient/doctorslist/page.tsx:34-39 | `page` and `limit` are always sent; `search` and `specialization` exactly when non-empty; no other name |
| DoctorsList.BuildQuery | app/dashboard/patient/doctorslist/page.tsx:34-39 | building with `set` yields page, limit, then the non-empty filters in that order |
| DoctorsList.QueryKey | app/dashboard/patient/doctorslist/page.tsx:49 | the cache key has five parts and starts with `"doctors"` |
| DoctorsList.QueryKeyInjective | app/dashboard/patient/doctorslist/page.tsx:49 | equal keys mean equal page, limit, query and specialization, so any change gives a new key |
| DoctorsList.CeilDiv | app/dashboard/patient/doctorslist/page.tsx:59 | the result `n` is the ceiling of `total / limit`: `(n-1)*limit < total <= n*limit` |
| DoctorsList.TotalPages | app/dashboard/patient/doctorslist/page.tsx:59 | the ceiling of `total / limit` when data is present, 1 otherwise |
| DoctorsList.PageButtons | app/dashboard/patient/doctorslist/page.tsx:85 | there are `max(totalPages, 0)` buttons and the i-th is labelled `i + 1` |
| DoctorsList.PageButtonsAreTheRange | app/dashboard/patient/doctorslist/page.tsx:85 | the buttons are exactly 1..totalPages, strictly ascending, so there are no duplicates |
| DoctorsList.AfterPrev | app/dashboard/patient/doctorslist/page.tsx:78-79 | Prev never leaves the page below 1 and moves back one from any page above 1 |
| DoctorsList.AfterNext | app/dashboard/patient/doctorslist/page.tsx:98-99 | on the last page nothing changes; below it Next moves forward one; past it (a page left over from an earlier filter) Next lands on `totalPages`: `min(page + 1, totalPages)` on every enabled click |
| DoctorsList.MovesStayInRange | app/dashboard/patient/doctorslist/page.tsx:78-99 | from a page in 1..totalPages both buttons stay in 1..totalPages |
| DoctorsList.EmptyDirectoryNextReachesPageZero | app/dashboard/patient/doctorslist/page.tsx:59-99 | with `total = 0` there are 0 pages and no numbered button, yet Next on page 1 moves to page 0 |
| DoctorsList.TotalPagesAtLeastOne | app/dashboard/patient/doctorslist/page.tsx:59 | corrected count: at least 1, and the ceiling of `total / limit` whenever `total > 0` |
| DoctorsList.CorrectedPagingStaysInRange | app/dashboard/patient/doctorslist/page.tsx:59-99 | with the corrected count the first page is in range and both buttons keep the page in 1..totalPages |
| DoctorsList.DoctorsListPage.constructor | app/dashboard/patient/doctorslist/page.tsx:12-14 | initial state: page 1, no page size yet, not mounted, so only the "Loading..." placeholder is shown (`ListShown` is false) |
| DoctorsList.DoctorsListPage.HandleResize | app/dashboard/patient/doctorslist/page.tsx:19-22 | the page size becomes `LimitFor(width)`, so 12 or 6 |
| DoctorsList.DoctorsListPage.Mount | app/dashboard/patient/doctorslist/page.tsx:17-26 | after mounting, the page is mounted and sized from the window width, so the render gate of line 55 is passed (`ListShown`) |
| DoctorsList.DoctorsListPage.Query | app/dashboard/patient/doctorslist/page.tsx:45-53 | the key reflects page, limit and the store's filters; a request is made exactly when the page size is set, with the `fetchDoctors` parameters, and its `limit` is 12 or 6 |
| DoctorsList.DoctorsListPage.SelectPage | app/dashboard/patient/doctorslist/page.tsx:88 | a numbered button, which exists only once the list is shown, sets the page to its number |
| DoctorsList.DoctorsListPage.ClickPrev | app/dashboard/patient/doctorslist/page.tsx:78-79 | a click, possible only once the list is shown, makes the page `AfterPrev(page)` |
| DoctorsList.DoctorsListPage.ClickNext | app/dashboard/patient/doctorslist/page.tsx:98-99 | a click, possible only once the list is shown, makes the page `AfterNext(page, totalPages)` for the rendered count |
| AuthSchema.PatientIssues | schemas/auth.schema.ts:3-8 | a field fails exactly when its rule fails: name shorter than 2, email rejected, password shorter than 6, photo URL present, non-empty and not a URL |
| AuthSchema.DoctorIssues | schemas/auth.schema.ts:10-16 | on the shared fields the doctor schema fails exactly where the patient schema does; specialization fails exactly when shorter than 2 |
| AuthSchema.LoginIssues | schemas/auth.schema.ts:22-28 | email fails when rejected, password when shorter than 6, role unless `"patient"` or `"doctor"` |
| AuthSchema.PatientValidIff | schemas/auth.schema.ts:3-8 | a patient form is valid iff name ≥ 2, email accepted, password ≥ 6 and photo URL absent, empty or a URL |
| AuthSchema.DoctorValidIff | schemas/auth.schema.ts:3-16 | a doctor form is valid iff the form without its specialization is a valid patient form and the specialization has ≥ 2 characters |
| AuthSchema.LoginValidIff | schemas/auth.schema.ts:22-28 | login is valid iff email accepted, password ≥ 6 and role is `"patient"` or `"doctor"` |
| AuthSchema.EmptyPhotoUrlIsAbsent | schemas/auth.schema.ts:7 | an empty photo URL is treated exactly like an absent one |
| AuthSchema.ShortPasswordRejected | schemas/auth.schema.ts:3-28 | a password of 5 or fewer characters fails all three schemas |
| Booking.BookingErrorMessage | app/dashboard/components/doctor.card.tsx:41-48 | failure text precedence: non-empty server message, then `Error.message`, then the generic fallback |
| Booking.BookingErrorRefinesCaught | app/dashboard/components/doctor.card.tsx:41-48 | without a server message the card reports a failure as the appointment pages do |
| Booking.DoctorCard.constructor | app/dashboard/components/doctor.card.tsx:14-16 | initial state: not loading, no date, picker hidden |
| Booking.DoctorCard.OpenPicker | app/dashboard/components/doctor.card.tsx:94 | "Book Appointment" shows the picker |
| Booking.DoctorCard.ClosePicker | app/dashboard/components/doctor.card.tsx:86 | "Cancel" hides the picker |
| Booking.DoctorCard.PickDate | app/dashboard/components/doctor.card.tsx:73 | the date input sets `date` |
| Booking.DoctorCard.HandleBook | app/dashboard/components/doctor.card.tsx:18-53 | no token or an empty one: nothing happens; empty date: an error toast and no request; otherwise the POST carries exactly `doctor.id` and the date and `loading` ends false; success clears the date and hides the picker; failure keeps both and reports the message by precedence; the inner token check is proved unreachable |

## Findings

| source | as written | input that shows it | evidently intended | confidence | as-written member | corrected member |
|---|---|---|---|---|---|---|
| app/dashboard/patient/doctorslist/page.tsx:59 | `totalPages = Math.ceil(data.total / limit)` is 0 when no doctor matches, and Next is disabled only when `page === totalPages` | `total = 0`, `page = 1`, any limit: Next is enabled and moves to `min(2, 0) = 0`, and the next query asks for page 0 | at least one page, falling back to 1 when the count is 0 as the appointment lists do, so the page stays in 1..totalPages | medium, not executed | DoctorsList.EmptyDirectoryNextReachesPageZero | DoctorsList.CorrectedPagingStaysInRange |

`DoctorsList.TotalPages` models line 59 as written. `DoctorsList.TotalPagesAtLeastOne` is the corrected count. The page class takes the rendered count as an input to `ClickNext`, so it is the same under either count.

## Left out

- HTTP: the axios client, the base URL, headers and URL encoding are not modelled. Each awaited call is an `Outcome` input, and the model returns the request it would send. `String(page)` and `String(limit)` stay numbers (`Num`) instead of decimal text.
- `localStorage`, `window.confirm`, the window width and the resize listener's registration are inputs, not modelled APIs.
- Toasts: the model returns the toast a handler raises; display and timing are not modelled.
- Re-render scheduling: `useEffect` refetching after a filter or page change, react-query's `staleTime` caching, `isLoading`/`isFetching`/`error` rendering, and the loading placeholders. `Query` gives the key and request of one render; refetch-on-key-change rests on `QueryKeyInjective`.
- Concurrency: the interleaving of overlapping requests, and out-of-order responses overwriting newer ones. Each handler is modelled as running to completion, so the model does not show `loading` or `updatingId` during the await.
- The `loading` flag of the appointment pages is modelled, but the model does not show the "Loading..." view it selects.
- Date formatting (`toLocaleString`), images and styling other than the status badge classes.
- The validation library's email and URL rules: they are the `Library` parameter. Zod's own error message texts are not modelled; the schemas return the set of failing fields.
- AuthSchema: zod measures `.min(n)` in UTF-16 code units, while the model counts Dafny characters (Unicode scalar values). The two differ for characters outside the Basic Multilingual Plane.
- Pager.AfterNext, DoctorsList.AfterNext: `totalPages` is a JavaScript number, taken here as an integer (`Math.ceil` on an integer total and a limit of 6 or 12 is exact).
- Auth.AuthStore.RoleName: the store is modelled with its declared type `"patient" | "doctor"` (stores/auth.store.ts:4), so the stored role is always one of those two names. The register page writes `"PATIENT"` and `"DOCTOR"`, which that type does not allow (app/(auth)/register/page.tsx:78, :97, :107). It also tests `role === "DOCTOR"` (:26, :33). After a register-tab click the real store therefore holds an upper-case name, and a `"doctor"` stored by login never selects the doctor schema there. The model does not capture those out-of-type values.
- Token decoding, cookies, the route guard, the session identity (`user`, `clearAuth`, hydration) and the register/login pages that use the schemas are not part of this model.
- The search box's 300 ms debounce, its click-outside listener and the one-time fetch of specializations are timers, DOM events and I/O, and are not modelled.
