# Hospital front end: session, login form and doctor dashboard

A verified Dafny model of the parts of a hospital-management front end that have their
own logic. Authentication and persistence go through a hosted backend. Every call to that
backend is modelled as an input: the result it resolves to, or the error it rejects with.
The request the front end would send is modelled as an output. Each awaited handler is one
atomic step.

- `AuthContext` (`auth_context.dfy`) models the session provider.
  - It has three fields: `user`, `profile` and `loading`.
  - It has five transitions: initialise, `login`, `logout`, `signUp` and `signIn`.
  - Pure step functions over a `Session` value specify the transitions. Class
    `AuthProvider` holds the fields, and each method is proved equal to its step.
  - `Consistent` means: user and profile are set together, and the user is built from
    the profile (same id, role and name). Every transition except `login` preserves it.
    `login` sets a user and leaves the profile alone, so it can break consistency.
- `UnifiedLoginForm` (`unified_login_form.dfy`) models the login form.
  - The role table maps each display role to a role code and a dashboard path.
  - The validation chain guards a submission: configuration, then required fields, then
    the full name on sign-up.
  - `LoginForm.HandleSubmit` dispatches to the provider's sign-in or sign-up. It says
    which remote call is made, where the form navigates, what toast it shows, and that
    `loading` ends false.
  - `ErrorText` maps an error to the text shown, by priority.
- `DoctorDashboard` (`doctor_dashboard.dfy`) models the doctor's dashboard.
  - Lab-test toggle, confirm and cancel in the request modal.
  - The case-insensitive patient search.
  - Patient selection, and selection from an appointment row.
  - The medication form's guard and end-date normalisation.
  - The appointment status counts.
  - Class `Dashboard` holds the component state. Its invariant is that the selected tests
    hold no duplicate.
- Helper modules:
  - `Lists`: JavaScript's `filter` and the facts about it (order, subsequence, no
    duplicates, concatenation, length).
  - `Text`: `toLowerCase` and `includes`.
  - `Outcomes`: options, thrown errors and remote results.
- Three client methods walk through end-to-end scenarios, and their asserts are proved
  from the contracts and the function definitions:
  - `LoginScenario.SignUpThenSignIn`: sign up as "Doctor", then sign in and land on
    `/doctor/dashboard`.
  - `DashboardScenario.RequestTests`: request CBC and Blood Sugar.
  - `DashboardScenario.AddOngoingMedication`: add a medication from a blank form, which
    is sent with no end date.

Two points of the code's behaviour:

- Neither the form nor the provider checks the role against the five offered roles. The
  form looks the role up in its table. For a role string that names no property of the
  table at all, the lookup gives `undefined`, and reading the entry throws a `TypeError`.
  The form's catch shows it as an ordinary error:
  - on sign-up, before the remote call;
  - on sign-in, only after the remote sign-in has run.
- A lab request's tests are sent as the selection list, in the order the tests were chosen.

## Model

| member | source | states |
|---|---|---|
| `AuthContext.InitializeStep` | src/context/AuthContext.tsx:36-60 | loading ends false on every path; user and profile are set (user built from the profile) exactly when both the current account and its profile are found, otherwise left as they were (rejections swallowed); consistency is preserved |
| `AuthContext.LoginStep` | src/context/AuthContext.tsx:61-63 | the user becomes the given one and the session is authenticated; profile and loading are unchanged |
| `AuthContext.LogoutStep` | src/context/AuthContext.tsx:65-73 | whatever the remote sign-out does, user and profile end null, the session is not authenticated and is consistent |
| `AuthContext.SignUpStep` | src/context/AuthContext.tsx:75-83 | sign-up leaves the session exactly as it was and passes the remote result (a rejection is rethrown) to the caller |
| `AuthContext.SignInStep` | src/context/AuthContext.tsx:85-103 | the step fails exactly when the sign-in rejects or, after an account came back, the profile lookup rejects, and then with that error; the session changes only when both an account and a profile come back, and then holds that profile and the user built from it; loading untouched; consistency preserved |
| `AuthContext.SignInAfterLogout` | src/context/AuthContext.tsx:65-103 | after a logout, a sign-in authenticates exactly when both lookups succeed, and the user's id is then the profile's id |
| `AuthContext.RunKeepsConsistent` | src/context/AuthContext.tsx:36-103 | any sequence of initialise, logout, sign-up and sign-in from a consistent session (the initial one included) ends consistent: user.id = profile.id, user.name = profile.full_name, user.role = profile.role |
| `AuthContext.UserOf` | src/context/AuthContext.tsx:44-48 | the user built from a profile row takes the row's id, role and full name |
| `AuthContext.Authenticated` | src/context/AuthContext.tsx:105 | in a consistent session, authenticated exactly when a profile is loaded, and the user then carries that profile's id, role and name |
| `AuthContext.AuthProvider.IsAuthenticated` | src/context/AuthContext.tsx:105 | true exactly when a user is set; while user and profile are consistent, exactly when a profile is loaded |
| `AuthContext.AuthProvider.constructor` | src/context/AuthContext.tsx:32-34 | user and profile start null, loading starts true |
| `AuthContext.AuthProvider.InitializeAuth` | src/context/AuthContext.tsx:38-57 | the provider's new state is the initialise step of its old state |
| `AuthContext.AuthProvider.Login` | src/context/AuthContext.tsx:61-63 | changes only the user field, as the login step does |
| `AuthContext.AuthProvider.Logout` | src/context/AuthContext.tsx:65-73 | changes only user and profile, as the logout step does; afterwards `isAuthenticated` is false |
| `AuthContext.AuthProvider.SignUp` | src/context/AuthContext.tsx:75-83 | changes no field and fails exactly when the remote sign-up fails |
| `AuthContext.AuthProvider.SignIn` | src/context/AuthContext.tsx:85-103 | new state and outcome are those of the sign-in step |
| `UnifiedLoginForm.RoleConfig` | src/components/Auth/UnifiedLoginForm.tsx:23-52 | a display role has an entry exactly when it is one of the five offered roles, and its code is one of the five role codes |
| `UnifiedLoginForm.RoleConfigInjective` | src/components/Auth/UnifiedLoginForm.tsx:31-52 | distinct display roles have distinct role codes and distinct dashboard paths |
| `UnifiedLoginForm.RoleConfigOnto` | src/components/Auth/UnifiedLoginForm.tsx:31-52 | every role code is reached from some offered display role |
| `UnifiedLoginForm.ValidationError` | src/components/Auth/UnifiedLoginForm.tsx:57-76 | a submission passes exactly when the configuration is set and not a placeholder, email, password and role are non-empty, and on sign-up the full name is non-empty; a bad configuration is reported first, then missing fields, then, on sign-up with an empty name, "Please enter your full name"; that message appears in no other case |
| `UnifiedLoginForm.ErrorText` | src/components/Auth/UnifiedLoginForm.tsx:94-105 | the shown text is never empty; "Invalid login credentials" wins over "Email not confirmed", which wins over "environment variables"; otherwise a non-empty message is shown as it is and a missing or empty one gives "Authentication failed" |
| `UnifiedLoginForm.LoginForm.constructor` | src/components/Auth/UnifiedLoginForm.tsx:11-18 | empty credentials and name, sign-in mode, not loading, no toast |
| `UnifiedLoginForm.LoginForm.HandleChange` | src/components/Auth/UnifiedLoginForm.tsx:113-118 | exactly the named credential field takes the new value |
| `UnifiedLoginForm.LoginForm.SetFullName` | src/components/Auth/UnifiedLoginForm.tsx:141 | the full name takes the new value |
| `UnifiedLoginForm.LoginForm.ToggleMode` | src/components/Auth/UnifiedLoginForm.tsx:181-183 | the sign-up flag flips |
| `UnifiedLoginForm.LoginForm.HandleSubmit` | src/components/Auth/UnifiedLoginForm.tsx:54-111 | a failed check shows its message, makes no remote call, and leaves loading, mode and session untouched. A passed check ends with loading false. Sign-in sends the credentials, and sign-up sends the name and the role's code; sign-up is not sent for a role without an entry. Only sign-in changes the session, exactly as the provider's sign-in step. A successful sign-up shows the success toast and returns to sign-in mode without navigating. A successful sign-in with a known role navigates to that role's dashboard. Every failure shows the classified error |
| `DoctorDashboard.Toggle` | src/components/Doctor/DoctorDashboard.tsx:212-218 | the test is in the result exactly when it was not selected; every other test keeps its membership; removal keeps the others in their relative order (a subsequence), and an unselected test is appended at the end |
| `DoctorDashboard.ToggleKeepsOtherCopies` | src/components/Doctor/DoctorDashboard.tsx:213-217 | every other test keeps exactly its number of copies, as `filter` and the append do |
| `DoctorDashboard.ToggleKeepsNoDup` | src/components/Doctor/DoctorDashboard.tsx:213-217 | toggling a selection without duplicates gives one without duplicates |
| `DoctorDashboard.ToggleTwiceUnselected` | src/components/Doctor/DoctorDashboard.tsx:213-217 | toggling an unselected test twice gives back exactly the original list |
| `DoctorDashboard.ToggleTwiceSelected` | src/components/Doctor/DoctorDashboard.tsx:213-217 | toggling a selected test twice moves it to the end and keeps the same tests; without duplicates the result is a permutation of the original |
| `DoctorDashboard.FilteredPatients` | src/components/Doctor/DoctorDashboard.tsx:74-77 | a patient is in the result exactly when it is in the list and its lower-cased name or id includes the lower-cased term; a matching patient keeps all its copies and a non-matching one has none; the result is a subsequence of the list |
| `DoctorDashboard.EmptySearchKeepsAll` | src/components/Doctor/DoctorDashboard.tsx:74-77 | an empty term returns the whole list, in order |
| `DoctorDashboard.SearchIgnoresTermCase` | src/components/Doctor/DoctorDashboard.tsx:74-77 | terms that lower-case alike give the same result, and a term gives the same result as its lower-cased form |
| `DoctorDashboard.SearchFindsNamePiece` | src/components/Doctor/DoctorDashboard.tsx:74-77 | any piece of a listed patient's name, in any letter case, finds that patient |
| `DoctorDashboard.FindPatient` | src/components/Doctor/DoctorDashboard.tsx:604 | the result is the first listed patient with that id, and is absent exactly when no listed patient has it |
| `DoctorDashboard.StatusCount` | src/components/Doctor/DoctorDashboard.tsx:483-487 | a status count never exceeds the number of appointments and is zero exactly when no appointment has that status; a single appointment counts 1 exactly when it has the status |
| `DoctorDashboard.StatusCountSplit` | src/components/Doctor/DoctorDashboard.tsx:483-487 | counts add up over any split of the list, so, with the single-appointment case, the count is the number of appointments with that status |
| `DoctorDashboard.CompletedAndPendingWithinTotal` | src/components/Doctor/DoctorDashboard.tsx:477-488 | the completed count plus the waiting count never exceeds the total |
| `DoctorDashboard.Dashboard.constructor` | src/components/Doctor/DoctorDashboard.tsx:30-46 | empty lists, loading, no search, no patient, overview tab, no modal, no tests, a blank medication form prefilled with the doctor's name and today |
| `DoctorDashboard.Dashboard.LoadDashboardData` | src/components/Doctor/DoctorDashboard.tsx:49-72 | without a profile nothing happens; otherwise the appointments and then the patients are replaced (null becomes empty), a rejection stops the sequence, and loading ends false |
| `DoctorDashboard.Dashboard.SetSearchTerm` | src/components/Doctor/DoctorDashboard.tsx:450 | the search term takes the typed value |
| `DoctorDashboard.Dashboard.SelectPatient` | src/components/Doctor/DoctorDashboard.tsx:79-83 | the patient becomes selected, the tab is reset to overview and the search term is cleared |
| `DoctorDashboard.Dashboard.SelectAppointment` | src/components/Doctor/DoctorDashboard.tsx:603-606 | the appointment's patient, if listed, is selected as by `SelectPatient`; otherwise nothing changes |
| `DoctorDashboard.Dashboard.OpenActionModal` | src/components/Doctor/DoctorDashboard.tsx:571 | the action's modal is open |
| `DoctorDashboard.Dashboard.ToggleTest` | src/components/Doctor/DoctorDashboard.tsx:212-218 | the selection becomes the toggle of the old one and stays free of duplicates |
| `DoctorDashboard.Dashboard.ConfirmTests` | src/components/Doctor/DoctorDashboard.tsx:220-241 | with a non-empty selection and a selected patient, the request for the tests selected at that moment is issued (when a profile is signed in), the selection is emptied and the modal closed; otherwise no request is issued and nothing changes |
| `DoctorDashboard.Dashboard.CloseModal` | src/components/Doctor/DoctorDashboard.tsx:243-246 | always empties the selection and closes the modal |
| `DoctorDashboard.Dashboard.AddMedication` | src/components/Doctor/DoctorDashboard.tsx:100-132 | without a selected patient nothing is sent and nothing changes. Otherwise, when a profile is signed in, the form is sent for that patient, with an empty end date sent as null; without a profile nothing is sent and nothing changes. After a successful insert the modal closes and the form is reset; after a failure both stay as they were |

## Left out

- The hosted backend's wrapper module (`src/lib/supabase.ts`) is not modelled. That
  includes the profile insert after sign-up, the queries, their ordering and joins, and the
  storage-key format. Only the results the handlers await are modelled, as inputs.
- `src/components/Hospital/PatientRegistration.tsx`, `src/components/Doctor/PatientDetail.tsx`
  and `src/data/patientData.ts` are not part of this model. They hold a single remote insert,
  mock data and rendering.
- The following are not modelled:
  - rendering and routing;
  - the dashboard's toasts;
  - the provider's loading screen;
  - console logging;
  - `useAuth`'s error outside a provider.
- Asynchronous interleaving is not modelled: each awaited handler is one atomic step. The
  effect is that the form's `loading` is never observed as true, since it is set true and
  then false inside one step.
- Dates and the clock are parameters (`today`).
- `DoctorDashboard.Dashboard`: the signed-in profile is fixed for the life of the
  dashboard. In the code it is read live from the session and the data is reloaded
  whenever it changes (src/components/Doctor/DoctorDashboard.tsx:26, 53). The
  no-profile branches of `ConfirmTests` and `AddMedication` stand for a profile that
  goes away after the load.
- `Text.Lower`: lower-cases only A to Z, not the full Unicode case mapping of
  `toLowerCase`.
- `UnifiedLoginForm.LoginForm.HandleSubmit`: role strings that name an inherited property
  of a JavaScript object, such as "toString", "constructor" or "valueOf", are treated as
  missing entries. In the code the lookup then gives a function, so reading its role gives
  `undefined` and nothing throws: sign-up is sent with an undefined role, and sign-in
  navigates to an undefined path. The role selector never offers these strings.
- `UnifiedLoginForm.UndefinedConfig`: the `TypeError` message is fixed to one string,
  because the exact wording depends on the JavaScript engine.
- The Add Medication button is disabled while the name, dosage or frequency is empty
  (src/components/Doctor/DoctorDashboard.tsx:391). That is a rendering guard, and
  `Dashboard.AddMedication` models the handler, which does not check it. In the same way,
  the Confirm button is disabled for an empty selection.
- Tab switching, the opening and closing of the medication modal, and the medication form's
  input setters are plain setters and are not modelled.
