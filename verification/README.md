# Attendance check-in app: a Dafny model

This project models the logic of a small mobile attendance app and the demo
task filter that ships beside it.

* `mybio.dfy` (module `MyBio`) models the shared session object `AppState` and
  its six fields. It also models the three-screen dispatch of the root view,
  the sign-up and log-in buttons, and biometric enrolment and verification.
  At its centre are the check-in and check-out decisions of the home screen.
  Each decision is a pure transition function on a `Session` value
  (`CheckInStep`, `CheckOutStep`), and its contract lists the cases.
  The class `AppState` keeps the source's fields and updates them in place.
  Each of its methods is proved to move the object exactly as the transition
  function says. `Run` folds a sequence of button taps. Lemmas over `Run` show
  two things: "checked in today implies a check-in date is recorded" holds
  after every run, and the home screen shows exactly when both a sign-up and a
  log-in tap have happened.
* `todos.dfy` (module `ToDos`) models the `ToDo` record, the ten-item sample
  list and the filter for completed tasks with an even id. The filter is a
  recursive function. Lemmas prove that it keeps exactly the qualifying items,
  keeps them in order and unchanged, is idempotent, and distributes over
  concatenation. Another lemma computes its result on the sample.

Platform services are inputs to the model:

* One device-owner authentication prompt is a `PromptResult`. `Unavailable`
  means the device cannot evaluate the policy, `Denied` means the owner was not
  authenticated, and `Approved` means the owner was. Each action consumes
  exactly one `PromptResult`: that of enrolment if no biometric is registered
  yet, that of verification otherwise.
* The current location is an `Option<LocationSample>`. A sample carries the
  distance in metres that the platform measured from it to the fixed office
  coordinate (37.7749, -122.4194).
* The check-in instant is a `Timestamp` supplied by the caller.

The alert text is replaced by an `Outcome` value, one constructor per message.

The field `checkInLocation` is declared but is never assigned by any action.
Its name suggests a recorded check-in location, but no action in the app
assigns it. The model follows the code: `CheckInStep` and `CheckOutStep` prove it unchanged.

## Model

| member | source | states |
|---|---|---|
| `MyBio.IsLocationWithinOffice` | mybio.swift:29-34 | For every non-negative measured distance, the geofence passes strictly inside 100 m and fails at 100 m and beyond. |
| `MyBio.GeofenceBoundary` | mybio.swift:29-34 | The geofence passes at distance 0 and fails at exactly 100 m and at 150 m. A sample closer than one that passes also passes. |
| `MyBio.ScreenFor` | mybio.swift:82-88 | Signup is shown iff not signed up. Login is shown iff signed up and not logged in. Home is shown iff signed up and logged in. |
| `MyBio.SignUpStep` | mybio.swift:115 | Signing up sets `isSignedUp`, changes no other field, keeps the invariant and leaves the Signup screen. |
| `MyBio.LogInStep` | mybio.swift:145 | Logging in sets `isLoggedIn`, changes no other field, keeps the invariant, and reaches Home when already signed up. |
| `MyBio.Enrolled` | mybio.swift:38-57 | Enrolment makes `isBiometricRegistered` true exactly when the prompt is approved. Otherwise the session is unchanged. No other field ever changes. |
| `MyBio.EnrolStep` | mybio.swift:188-196 | The enrol-first branch reports Registered iff the prompt is approved, and RegisterFailed otherwise. It never changes `hasCheckedInToday` or `checkInDate`. |
| `MyBio.CheckInStep` | mybio.swift:187-215 | Without registration, check-in only enrols. CheckedIn happens iff the user is registered, verified, not yet checked in, and has a sample under 100 m; then exactly the flag and the date are set. AuthFailed, AlreadyCheckedIn (whatever the location) and NotAtOffice (no sample, or 100 m or more) change nothing. The location field and the login flags are untouched, and the invariant is kept. |
| `MyBio.CheckOutStep` | mybio.swift:217-242 | Without registration, check-out only enrols. CheckedOut happens iff the user is registered, verified and checked in; then only the flag is cleared. AuthFailed and NotCheckedIn change nothing. The date, the location and the login flags are never modified, and the invariant is kept. |
| `MyBio.InitialInvariant` | mybio.swift:5-12 | The initial session satisfies the invariant and shows the Signup screen. |
| `MyBio.RunPreservesInvariant` | mybio.swift:203-204 | After any sequence of sign-up, log-in, check-in and check-out taps, being checked in still implies that a date is recorded. |
| `MyBio.RunFlags` | mybio.swift:114-146 | After a run, `isSignedUp` holds iff it held before or the run has a sign-up tap. The same holds for `isLoggedIn` and log-in taps. |
| `MyBio.HomeReachedExactlyAfterSignUpAndLogIn` | mybio.swift:82-88 | From the initial session, Home is shown iff the run contains both a sign-up and a log-in tap. Sign-up followed by log-in reaches Home. |
| `MyBio.AppState.constructor` | mybio.swift:5-12 | A new session object has every flag false and nothing recorded, and satisfies the invariant. |
| `MyBio.AppState.SignUp` | mybio.swift:114-116 | Assigns only `isSignedUp`, which moves the object as `SignUpStep` does. |
| `MyBio.AppState.LogIn` | mybio.swift:144-146 | Assigns only `isLoggedIn`, which moves the object as `LogInStep` does. |
| `MyBio.AppState.RegisterBiometric` | mybio.swift:38-57 | Reports success iff the prompt is approved. Assigns only `isBiometricRegistered`, as `Enrolled` says. |
| `MyBio.AppState.VerifyBiometric` | mybio.swift:59-73 | Reports success iff the prompt is approved, and modifies nothing. |
| `MyBio.AppState.CheckIn` | mybio.swift:187-215 | The new fields and the outcome are those of `CheckInStep`. The method may write only the registration flag, the checked-in flag and the date, and it keeps the invariant. |
| `MyBio.AppState.CheckOut` | mybio.swift:217-242 | The new fields and the outcome are those of `CheckOutStep`. The method may write only the registration flag and the checked-in flag, and it keeps the invariant. |
| `ToDos.TruncatedRemainder` | todos.swift:23 | Swift's `%`: the remainder lies in `[0, b)` for a non-negative dividend and in `(-b, 0]` for a negative one. |
| `ToDos.TruncatedDivision` | todos.swift:23 | Swift's truncating quotient times the divisor plus `TruncatedRemainder` gives back the dividend, for every dividend and positive divisor. |
| `ToDos.IsCompletedEven` | todos.swift:23 | A task qualifies iff its id has remainder zero under Swift's truncating `%` by 2 and its status is `true`. |
| `ToDos.FilterCompletedEvenToDos` | todos.swift:22-24 | An item is in the result iff it is in the input, has an even id and is completed. The result is no longer than the input. |
| `ToDos.FilterIsSubsequence` | todos.swift:23 | The result is a subsequence of the input: items are unchanged and in their original relative order. |
| `ToDos.FilterIdempotent` | todos.swift:23 | Filtering the result again gives the same result. |
| `ToDos.FilterDistributesOverConcat` | todos.swift:23 | Filtering `xs + ys` gives the filter of `xs` followed by the filter of `ys`. |
| `ToDos.SampleResult` | todos.swift:9-27 | On the sample list, the result is exactly the items with ids 2, 4, 6 and 10, in that order. |

## Left out

- Screen layout, text fields, styling and alert presentation are left out. The alert message is represented only by the `Outcome` returned.
- The platform authentication calls (capability query and prompt) are not modelled. Their result is the `PromptResult` argument.
- Location authorization and continuous updates are not modelled, including the delegate callback that keeps the last sample. The current sample is an argument.
- The geodesic distance to the office coordinate is a floating-point platform computation. It is not modelled: the sample carries the measured distance as a non-negative `real`, and only the strict `< 100` threshold is modelled. Floating-point rounding is not captured.
- The wall clock `Date()` is the `now` argument of check-in.
- Redelivery of prompt results to the main thread is left out. So are the races between repeated taps while a prompt is pending. Each action is modelled as one atomic step.
- `Run` lets any tap happen in any state. The app offers each button only on its own screen, so the set of reachable sequences in the app is smaller than the set of runs covered here.
- Printing the filtered sample list is I/O and is left out. The computed list is the constant `CompletedEvenToDos`.
- Task ids are unbounded integers rather than 64-bit. The filter only tests `% 2 == 0`, which cannot overflow. `IsCompletedEven` is proved to agree with Swift's truncating remainder (`TruncatedRemainder`).
