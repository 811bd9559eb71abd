/** The attendance companion app: its session flags, the three-screen dispatch,
    the biometric gate, the office geofence and the check-in/check-out decisions.

    Platform services are inputs: a biometric prompt is reported as a
    PromptResult, the current location as an optional LocationSample that
    already carries its measured distance to the office, and the wall clock
    as a Timestamp supplied by the caller. */
module MyBio {

  datatype Option<T> = None | Some(value: T)

  /** Wall-clock instant recorded by a successful check-in, supplied by the caller. */
  type Timestamp = int

  // ---------------------------------------------------------------------------
  // Location provider
  // ---------------------------------------------------------------------------

  /** Radius of the office geofence in metres; the boundary itself is outside. */
  const OfficeRadiusMetres: real := 100.0

  /** A distance in metres; a measured distance is never negative. */
  type Metres = d: real | d >= 0.0

  /** The device's current position, reduced to the distance that the platform
      measured from it to the fixed office coordinate. */
  datatype LocationSample = LocationSample(metresToOffice: Metres)

  /** The geofence test: strictly closer than the radius. */
  function IsLocationWithinOffice(location: LocationSample): (within: bool)
    // at the office and anywhere inside the radius the test passes
    ensures location.metresToOffice < 100.0 ==> within
    // on the 100 m boundary and beyond the test fails
    ensures location.metresToOffice >= 100.0 ==> !within
  {
    location.metresToOffice < OfficeRadiusMetres
  }

  /** At the office point the test passes; on the 100 m boundary and at 150 m it fails;
      and it is monotone: a sample closer than one that passes also passes. */
  lemma GeofenceBoundary(location: LocationSample, closer: LocationSample)
    ensures location.metresToOffice == 0.0 ==> IsLocationWithinOffice(location)
    ensures location.metresToOffice == 100.0 ==> !IsLocationWithinOffice(location)
    ensures location.metresToOffice == 150.0 ==> !IsLocationWithinOffice(location)
    ensures (IsLocationWithinOffice(location) && closer.metresToOffice <= location.metresToOffice)
              ==> IsLocationWithinOffice(closer)
  {
  }

  // ---------------------------------------------------------------------------
  // Biometric gate
  // ---------------------------------------------------------------------------

  /** What one device-owner authentication prompt reported: the device cannot
      evaluate the policy, the owner was not authenticated (cancel, failure,
      lockout), or the owner was authenticated. */
  datatype PromptResult = Unavailable | Denied | Approved

  // ---------------------------------------------------------------------------
  // Session state, as a value
  // ---------------------------------------------------------------------------

  /** The abstract value of the app's shared session object. */
  datatype Session = Session(
    isSignedUp: bool,
    isLoggedIn: bool,
    isBiometricRegistered: bool,
    hasCheckedInToday: bool,
    checkInDate: Option<Timestamp>,
    checkInLocation: Option<LocationSample>)

  /** The session at process start: every flag false, nothing recorded. */
  const Initial: Session := Session(false, false, false, false, None, None)

  /** Being checked in today implies that a check-in instant was recorded. */
  predicate Invariant(s: Session)
  {
    s.hasCheckedInToday ==> s.checkInDate.Some?
  }

  /** The user-facing result of a check-in or check-out attempt (the alert text). */
  datatype Outcome =
    | Registered        // "Biometric registered successfully."
    | RegisterFailed    // "Failed to register biometric."
    | AuthFailed        // "Biometric authentication failed."
    | AlreadyCheckedIn  // "You have already checked in today."
    | NotAtOffice       // "You are not at the office location."
    | CheckedIn         // "Check-in successful."
    | NotCheckedIn      // "You have not checked in today."
    | CheckedOut        // "Check-out successful."

  /** The session after an action, and what the user is told. */
  datatype Step = Step(next: Session, outcome: Outcome)

  // ---------------------------------------------------------------------------
  // View flow
  // ---------------------------------------------------------------------------

  datatype Screen = SignupScreen | LoginScreen | HomeScreen

  /** The screen the root view shows for a session. */
  function ScreenFor(s: Session): (screen: Screen)
    ensures screen == SignupScreen <==> !s.isSignedUp
    ensures screen == LoginScreen <==> s.isSignedUp && !s.isLoggedIn
    ensures screen == HomeScreen <==> s.isSignedUp && s.isLoggedIn
  {
    if !s.isSignedUp then SignupScreen
    else if !s.isLoggedIn then LoginScreen
    else HomeScreen
  }

  /** The sign-up button: marks the user signed up and nothing else. */
  function SignUpStep(s: Session): (t: Session)
    ensures t.isSignedUp
    ensures t.(isSignedUp := s.isSignedUp) == s
    ensures Invariant(s) ==> Invariant(t)
    ensures ScreenFor(t) != SignupScreen
  {
    s.(isSignedUp := true)
  }

  /** The log-in button: marks the user logged in and nothing else. */
  function LogInStep(s: Session): (t: Session)
    ensures t.isLoggedIn
    ensures t.(isLoggedIn := s.isLoggedIn) == s
    ensures Invariant(s) ==> Invariant(t)
    ensures s.isSignedUp ==> ScreenFor(t) == HomeScreen
  {
    s.(isLoggedIn := true)
  }

  // ---------------------------------------------------------------------------
  // Biometric registration and the two actions
  // ---------------------------------------------------------------------------

  /** Enrolment: the registration flag becomes true exactly when the prompt
      authenticates the owner; otherwise the session is left as it was. */
  function Enrolled(s: Session, prompt: PromptResult): (t: Session)
    ensures t.isBiometricRegistered <==> s.isBiometricRegistered || prompt == Approved
    ensures prompt != Approved ==> t == s
    ensures t.(isBiometricRegistered := s.isBiometricRegistered) == s
  {
    if prompt == Approved then s.(isBiometricRegistered := true) else s
  }

  /** The enrol-first branch shared by both actions: it only registers and
      reports; it never checks in or out. */
  function EnrolStep(s: Session, prompt: PromptResult): (r: Step)
    ensures r.next == Enrolled(s, prompt)
    ensures r.outcome == Registered <==> prompt == Approved
    ensures r.outcome == RegisterFailed <==> prompt != Approved
    ensures r.next.hasCheckedInToday == s.hasCheckedInToday && r.next.checkInDate == s.checkInDate
  {
    Step(Enrolled(s, prompt), if prompt == Approved then Registered else RegisterFailed)
  }

  /** The check-in action. */
  function CheckInStep(s: Session, prompt: PromptResult, location: Option<LocationSample>, now: Timestamp): (r: Step)
    // an unregistered user is only enrolled, and told Registered exactly when
    // the enrolment prompt is approved; the check-in fields stay as they were
    ensures !s.isBiometricRegistered ==> r == EnrolStep(s, prompt)
    // the registration flag changes only through a successful enrolment
    ensures r.next.isBiometricRegistered <==> s.isBiometricRegistered || prompt == Approved
    // success exactly when all five conditions hold, and then both fields are set
    ensures r.outcome == CheckedIn <==>
              s.isBiometricRegistered && prompt == Approved && !s.hasCheckedInToday &&
              location.Some? && location.value.metresToOffice < 100.0
    ensures r.outcome == CheckedIn ==> r.next == s.(hasCheckedInToday := true, checkInDate := Some(now))
    ensures r.outcome != CheckedIn ==>
              r.next.hasCheckedInToday == s.hasCheckedInToday && r.next.checkInDate == s.checkInDate
    // a failed verification reports AuthFailed and changes nothing
    ensures s.isBiometricRegistered && prompt != Approved ==> r == Step(s, AuthFailed)
    // already checked in wins over the location, present or not
    ensures s.isBiometricRegistered && prompt == Approved && s.hasCheckedInToday ==> r == Step(s, AlreadyCheckedIn)
    // no sample, or a sample at 100 m or more, is "not at office"
    ensures (s.isBiometricRegistered && prompt == Approved && !s.hasCheckedInToday &&
             (location.None? || location.value.metresToOffice >= 100.0)) ==> r == Step(s, NotAtOffice)
    // never recorded, never touched
    ensures r.next.checkInLocation == s.checkInLocation
    ensures r.next.isSignedUp == s.isSignedUp && r.next.isLoggedIn == s.isLoggedIn
    ensures Invariant(s) ==> Invariant(r.next)
  {
    if !s.isBiometricRegistered then
      EnrolStep(s, prompt)
    else if prompt != Approved then
      Step(s, AuthFailed)
    else if s.hasCheckedInToday then
      Step(s, AlreadyCheckedIn)
    else if location.Some? && IsLocationWithinOffice(location.value) then
      Step(s.(hasCheckedInToday := true, checkInDate := Some(now)), CheckedIn)
    else
      Step(s, NotAtOffice)
  }

  /** The check-out action; it takes no location. */
  function CheckOutStep(s: Session, prompt: PromptResult): (r: Step)
    // an unregistered user is only enrolled, and told Registered exactly when
    // the enrolment prompt is approved; the checked-in flag stays as it was
    ensures !s.isBiometricRegistered ==> r == EnrolStep(s, prompt)
    ensures r.next.isBiometricRegistered <==> s.isBiometricRegistered || prompt == Approved
    // success exactly when registered, verified and checked in; it only clears the flag
    ensures r.outcome == CheckedOut <==> s.isBiometricRegistered && prompt == Approved && s.hasCheckedInToday
    ensures r.outcome == CheckedOut ==> r.next == s.(hasCheckedInToday := false)
    ensures r.outcome != CheckedOut ==> r.next.hasCheckedInToday == s.hasCheckedInToday
    ensures s.isBiometricRegistered && prompt != Approved ==> r == Step(s, AuthFailed)
    ensures s.isBiometricRegistered && prompt == Approved && !s.hasCheckedInToday ==> r == Step(s, NotCheckedIn)
    // the recorded check-in instant and location are never modified
    ensures r.next.checkInDate == s.checkInDate && r.next.checkInLocation == s.checkInLocation
    ensures r.next.isSignedUp == s.isSignedUp && r.next.isLoggedIn == s.isLoggedIn
    ensures Invariant(s) ==> Invariant(r.next)
  {
    if !s.isBiometricRegistered then
      EnrolStep(s, prompt)
    else if prompt != Approved then
      Step(s, AuthFailed)
    else if !s.hasCheckedInToday then
      Step(s, NotCheckedIn)
    else
      Step(s.(hasCheckedInToday := false), CheckedOut)
  }

  // ---------------------------------------------------------------------------
  // Sequences of user actions
  // ---------------------------------------------------------------------------

  /** A button tap, with the platform results it meets. */
  datatype Action =
    | TapSignUp
    | TapLogIn
    | TapCheckIn(prompt: PromptResult, location: Option<LocationSample>, now: Timestamp)
    | TapCheckOut(prompt: PromptResult)

  function Apply(s: Session, a: Action): Session
  {
    match a
    case TapSignUp => SignUpStep(s)
    case TapLogIn => LogInStep(s)
    case TapCheckIn(prompt, location, now) => CheckInStep(s, prompt, location, now).next
    case TapCheckOut(prompt) => CheckOutStep(s, prompt).next
  }

  /** The session after performing the actions in order. */
  function Run(s: Session, actions: seq<Action>): Session
    decreases |actions|
  {
    if actions == [] then s else Run(Apply(s, actions[0]), actions[1..])
  }

  /** The invariant holds initially and after every sequence of actions. */
  lemma {:induction false} RunPreservesInvariant(s: Session, actions: seq<Action>)
    requires Invariant(s)
    ensures Invariant(Run(s, actions))
    decreases |actions|
  {
    if actions != [] {
      RunPreservesInvariant(Apply(s, actions[0]), actions[1..]);
    }
  }

  lemma InitialInvariant()
    ensures Invariant(Initial) && ScreenFor(Initial) == SignupScreen
  {
  }

  /** Only a sign-up tap sets the signed-up flag, and only a log-in tap the logged-in flag. */
  lemma {:induction false} RunFlags(s: Session, actions: seq<Action>)
    ensures Run(s, actions).isSignedUp <==> s.isSignedUp || TapSignUp in actions
    ensures Run(s, actions).isLoggedIn <==> s.isLoggedIn || TapLogIn in actions
    decreases |actions|
  {
    if actions != [] {
      RunFlags(Apply(s, actions[0]), actions[1..]);
      assert actions == [actions[0]] + actions[1..];
    }
  }

  /** From the initial session the home screen is shown exactly after a run that
      contains both a sign-up and a log-in tap; sign-up then log-in reaches it. */
  lemma HomeReachedExactlyAfterSignUpAndLogIn(actions: seq<Action>)
    ensures ScreenFor(Run(Initial, actions)) == HomeScreen <==> TapSignUp in actions && TapLogIn in actions
    ensures ScreenFor(Run(Initial, [TapSignUp, TapLogIn])) == HomeScreen
  {
    RunFlags(Initial, actions);
    RunFlags(Initial, [TapSignUp, TapLogIn]);
  }

  // ---------------------------------------------------------------------------
  // The session object, updated in place
  // ---------------------------------------------------------------------------

  /** The app's shared, mutable session. */
  class AppState {
    var isSignedUp: bool
    var isLoggedIn: bool
    var isBiometricRegistered: bool
    var hasCheckedInToday: bool
    var checkInDate: Option<Timestamp>
    var checkInLocation: Option<LocationSample>

    /** The abstract value of the object's fields. */
    function State(): Session
      reads this
    {
      Session(isSignedUp, isLoggedIn, isBiometricRegistered, hasCheckedInToday, checkInDate, checkInLocation)
    }

    predicate Valid()
      reads this
    {
      Invariant(State())
    }

    constructor ()
      ensures State() == Initial && Valid()
    {
      isSignedUp := false;
      isLoggedIn := false;
      isBiometricRegistered := false;
      hasCheckedInToday := false;
      checkInDate := None;
      checkInLocation := None;
    }

    method SignUp()
      modifies this`isSignedUp
      ensures State() == SignUpStep(old(State()))
      ensures old(Valid()) ==> Valid()
    {
      isSignedUp := true;
    }

    method LogIn()
      modifies this`isLoggedIn
      ensures State() == LogInStep(old(State()))
      ensures old(Valid()) ==> Valid()
    {
      isLoggedIn := true;
    }

    /** Enrols the device owner's biometric; reports whether it succeeded. */
    method RegisterBiometric(prompt: PromptResult) returns (success: bool)
      modifies this`isBiometricRegistered
      ensures success <==> prompt == Approved
      ensures State() == Enrolled(old(State()), prompt)
    {
      if prompt != Unavailable {
        if prompt == Approved {
          isBiometricRegistered := true;
          success := true;
        } else {
          success := false;
        }
      } else {
        success := false;
      }
    }

    /** Authenticates the device owner; changes nothing. */
    method VerifyBiometric(prompt: PromptResult) returns (success: bool)
      ensures success <==> prompt == Approved
    {
      if prompt != Unavailable {
        success := prompt == Approved;
      } else {
        success := false;
      }
    }

    method CheckIn(prompt: PromptResult, location: Option<LocationSample>, now: Timestamp) returns (outcome: Outcome)
      modifies this`isBiometricRegistered, this`hasCheckedInToday, this`checkInDate
      ensures State() == CheckInStep(old(State()), prompt, location, now).next
      ensures outcome == CheckInStep(old(State()), prompt, location, now).outcome
      ensures old(Valid()) ==> Valid()
    {
      if !isBiometricRegistered {
        var success := RegisterBiometric(prompt);
        outcome := if success then Registered else RegisterFailed;
      } else {
        var success := VerifyBiometric(prompt);
        if success {
          if hasCheckedInToday {
            outcome := AlreadyCheckedIn;
          } else if location.Some? && IsLocationWithinOffice(location.value) {
            hasCheckedInToday := true;
            checkInDate := Some(now);
            outcome := CheckedIn;
          } else {
            outcome := NotAtOffice;
          }
        } else {
          outcome := AuthFailed;
        }
      }
    }

    method CheckOut(prompt: PromptResult) returns (outcome: Outcome)
      modifies this`isBiometricRegistered, this`hasCheckedInToday
      ensures State() == CheckOutStep(old(State()), prompt).next
      ensures outcome == CheckOutStep(old(State()), prompt).outcome
      ensures old(Valid()) ==> Valid()
    {
      if !isBiometricRegistered {
        var success := RegisterBiometric(prompt);
        outcome := if success then Registered else RegisterFailed;
      } else {
        var success := VerifyBiometric(prompt);
        if success {
          if !hasCheckedInToday {
            outcome := NotCheckedIn;
          } else {
            hasCheckedInToday := false;
            outcome := CheckedOut;
          }
        } else {
          outcome := AuthFailed;
        }
      }
    }
  }
}
