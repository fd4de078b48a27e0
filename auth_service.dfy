/**
 * The signed-in state: the auth listener's flags, the onboarding rule that
 * reads the stored profile, sign-out, and which sign-ins write a profile.
 * The identity provider's answers are parameters; profiles live in a
 * `UserStore`.
 */
module AuthService {
  import opened Wrappers
  import UserProfileService
  import LocationService

  type UserProfile = UserProfileService.UserProfile
  type ProfileError = UserProfileService.ProfileError

  /** The provider's account: `email` and `displayName` may be missing. */
  datatype User = User(uid: string, email: Option<string>, displayName: Option<string>)

  /** What `updateLocationIfAuthorized` does for a location authorization status. */
  datatype LocationAction = SaveLocation | RequestAuthorization | NoLocationAction

  /**
   * `checkOnboardingStatus` on the outcome of `fetchUserProfile`: a stored flag
   * decides; without one, a profession or a non-empty bio counts as done; a
   * fetch that throws (a missing profile among them) or a nil profile counts as
   * not done.
   */
  function OnboardingComplete(fetched: Result<Option<UserProfile>, ProfileError>): (done: bool)
    ensures done ==> fetched.Ok? && fetched.value.Some?
    ensures fetched.Ok? && fetched.value.Some? && fetched.value.value.hasCompletedOnboarding.Some? ==>
              done == fetched.value.value.hasCompletedOnboarding.value
    ensures fetched.Ok? && fetched.value.Some? && fetched.value.value.hasCompletedOnboarding.None? ==>
              (done <==> fetched.value.value.profession.Some? ||
                         (fetched.value.value.bio.Some? && fetched.value.value.bio.value != ""))
  {
    match fetched
    case Err(_) => false
    case Ok(None) => false
    case Ok(Some(p)) =>
      if p.hasCompletedOnboarding.Some? then p.hasCompletedOnboarding.value
      else p.profession.Some? || !(if p.bio.Some? then p.bio.value == "" else true)
  }

  /** `updateLocationIfAuthorized`: save when authorized, ask when undecided, else nothing. */
  function LocationActionFor(status: LocationService.AuthorizationStatus): (act: LocationAction)
    ensures act == SaveLocation <==> LocationService.IsAuthorized(status)
    ensures act == RequestAuthorization <==> status == LocationService.NotDetermined
  {
    if LocationService.IsAuthorized(status) then SaveLocation
    else if status == LocationService.NotDetermined then RequestAuthorization
    else NoLocationAction
  }

  /** Google and Apple sign-in write the profile only when the account has both an email and a name. */
  predicate WritesProfile(user: User) {
    user.email.Some? && user.displayName.Some?
  }

  /** An account that was just created is not onboarded. */
  lemma NewAccountNotOnboarded(users: map<string, UserProfileService.Document>, uid: string,
                               email: string, displayName: string, now: nat)
    ensures !OnboardingComplete(UserProfileService.FetchUserProfile(
              users[uid := UserProfileService.Encode(UserProfileService.NewProfile(uid, email, displayName, now))], uid))
  {
    UserProfileService.CreateThenFetch(users, uid, email, displayName, now);
  }

  /** A stored profile's own flag is what the listener reports. */
  lemma StoredFlagDecides(users: map<string, UserProfileService.Document>, p: UserProfile)
    requires p.hasCompletedOnboarding.Some?
    ensures OnboardingComplete(UserProfileService.FetchUserProfile(users[p.id := UserProfileService.Encode(p)], p.id))
            == p.hasCompletedOnboarding.value
  {
    UserProfileService.DecodeEncode(p);
  }

  /** A profile written before the flag existed counts as onboarded when it has a profession. */
  lemma LegacyProfileWithProfession(users: map<string, UserProfileService.Document>, p: UserProfile)
    requires p.hasCompletedOnboarding.None? && p.profession.Some?
    ensures OnboardingComplete(UserProfileService.FetchUserProfile(users[p.id := UserProfileService.Encode(p)], p.id))
  {
    UserProfileService.DecodeEncode(p);
  }

  /** A profile that cannot be read back gives "not onboarded" rather than an error. */
  lemma UnreadableProfileNotOnboarded(users: map<string, UserProfileService.Document>, uid: string)
    requires uid in users && !UserProfileService.Decodable(users[uid])
    ensures !OnboardingComplete(UserProfileService.FetchUserProfile(users, uid))
  {
  }

  class AuthService {
    var currentUser: Option<User>
    var isAuthenticated: bool
    var hasCompletedOnboarding: bool

    constructor()
      ensures currentUser == None && !isAuthenticated && !hasCompletedOnboarding
    {
      currentUser := None;
      isAuthenticated := false;
      hasCompletedOnboarding := false;
    }

    /**
     * The auth-state listener: records the user, and for a signed-in user reads
     * the onboarding status from the store and returns the location step taken
     * for the given authorization status. `readFault` is the error of the
     * profile read, if it throws.
     */
    method AuthStateChanged(user: Option<User>, store: UserProfileService.UserStore, readFault: Option<string>,
                            locationStatus: LocationService.AuthorizationStatus)
      returns (act: LocationAction)
      modifies this
      ensures currentUser == user && isAuthenticated == user.Some?
      ensures user.None? ==> !hasCompletedOnboarding && act == NoLocationAction
      ensures user.Some? && readFault.Some? ==> !hasCompletedOnboarding && act == LocationActionFor(locationStatus)
      ensures user.Some? && readFault.None? ==>
                hasCompletedOnboarding == OnboardingComplete(UserProfileService.FetchUserProfile(store.users, user.value.uid)) &&
                act == LocationActionFor(locationStatus)
    {
      currentUser := user;
      isAuthenticated := user.Some?;
      if user.Some? {
        CheckOnboardingStatus(user.value.uid, store, readFault);
        act := LocationActionFor(locationStatus);
      } else {
        hasCompletedOnboarding := false;
        act := NoLocationAction;
      }
    }

    /**
     * `checkOnboardingStatus(uid:)`: a read that throws (`readFault`) is caught
     * and counts as not onboarded, whatever the stored profile says.
     */
    method CheckOnboardingStatus(uid: string, store: UserProfileService.UserStore, readFault: Option<string>)
      modifies this
      ensures readFault.Some? ==> !hasCompletedOnboarding
      ensures readFault.None? ==>
                hasCompletedOnboarding == OnboardingComplete(UserProfileService.FetchUserProfile(store.users, uid))
      ensures currentUser == old(currentUser) && isAuthenticated == old(isAuthenticated)
    {
      var fetched := if readFault.Some? then Err(UserProfileService.Backend(readFault.value))
                     else UserProfileService.FetchUserProfile(store.users, uid);
      if fetched.Ok? && fetched.value.Some? {
        var profile := fetched.value.value;
        if profile.hasCompletedOnboarding.Some? {
          hasCompletedOnboarding := profile.hasCompletedOnboarding.value;
        } else {
          hasCompletedOnboarding := profile.profession.Some? || !(if profile.bio.Some? then profile.bio.value == "" else true);
        }
      } else {
        hasCompletedOnboarding := false;
      }
    }

    /**
     * `signOut`: when the provider signs out without error the onboarding flag is
     * cleared; the user fields wait for the listener. A provider error leaves everything.
     */
    method SignOut(providerError: Option<string>) returns (r: Result<(), string>)
      modifies this
      ensures providerError.Some? ==> r == Err(providerError.value) && hasCompletedOnboarding == old(hasCompletedOnboarding)
      ensures providerError.None? ==> r == Ok(()) && !hasCompletedOnboarding
      ensures currentUser == old(currentUser) && isAuthenticated == old(isAuthenticated)
    {
      if providerError.Some? {
        return Err(providerError.value);
      }
      hasCompletedOnboarding := false;
      r := Ok(());
    }
  }

  /**
   * `signUp`: the account is created, its display name committed, then the
   * profile written; a failure of either provider step stops before the write,
   * and a failing write (`writeFault`) leaves the account without a profile.
   */
  method SignUp(created: Result<string, string>, committed: Result<(), string>,
                email: string, displayName: string, now: nat, writeFault: Option<string>,
                store: UserProfileService.UserStore)
    returns (r: Result<(), string>)
    modifies store
    ensures created.Err? ==> r == Err(created.error) && store.users == old(store.users)
    ensures created.Ok? && committed.Err? ==> r == Err(committed.error) && store.users == old(store.users)
    ensures created.Ok? && committed.Ok? && writeFault.Some? ==>
              r == Err(writeFault.value) && store.users == old(store.users)
    ensures created.Ok? && committed.Ok? && writeFault.None? ==>
              r == Ok(()) &&
              store.users == old(store.users)[created.value :=
                               UserProfileService.Encode(UserProfileService.NewProfile(created.value, email, displayName, now))]
  {
    if created.Err? {
      return Err(created.error);
    }
    if committed.Err? {
      return Err(committed.error);
    }
    var written := store.CreateUserProfile(created.value, email, displayName, now, writeFault);
    if written.Err? {
      return Err(writeFault.value);
    }
    r := Ok(());
  }

  /**
   * The profile store after a signed-in `user`'s profile call succeeds: the
   * sign-in fields merged into an existing document, a new profile otherwise,
   * and no write for an account without both an email and a display name.
   */
  function StoreAfterSignIn(users: map<string, UserProfileService.Document>, user: User, now: nat)
    : map<string, UserProfileService.Document>
  {
    if !WritesProfile(user) then users
    else if user.uid in users then
      users[user.uid := UserProfileService.Merge(users[user.uid],
                          UserProfileService.SignInFields(user.email.value, user.displayName.value, now))]
    else users[user.uid := UserProfileService.Encode(UserProfileService.NewProfile(user.uid, user.email.value,
                                                                                   user.displayName.value, now))]
  }

  /**
   * `signInWithGoogle` and `signInWithApple`, which differ only in the credential:
   * after a successful sign-in the profile is created or updated when the
   * account has both an email and a display name; a failing profile call
   * (`writeFault`) makes the call throw although the user is signed in.
   */
  method SignInWithProvider(signedIn: Result<User, string>, now: nat, writeFault: Option<string>,
                            store: UserProfileService.UserStore)
    returns (r: Result<(), string>)
    modifies store
    ensures signedIn.Err? ==> r == Err(signedIn.error) && store.users == old(store.users)
    ensures signedIn.Ok? && !WritesProfile(signedIn.value) ==> r == Ok(()) && store.users == old(store.users)
    ensures signedIn.Ok? && WritesProfile(signedIn.value) && writeFault.Some? ==>
              r == Err(writeFault.value) && store.users == old(store.users)
    ensures signedIn.Ok? && WritesProfile(signedIn.value) && writeFault.None? ==>
              var u := signedIn.value;
              r == Ok(()) &&
              (u.uid in old(store.users) ==>
                 store.users == old(store.users)[u.uid := UserProfileService.Merge(old(store.users)[u.uid],
                                  UserProfileService.SignInFields(u.email.value, u.displayName.value, now))]) &&
              (u.uid !in old(store.users) ==>
                 store.users == old(store.users)[u.uid := UserProfileService.Encode(
                                  UserProfileService.NewProfile(u.uid, u.email.value, u.displayName.value, now))])
  {
    if signedIn.Err? {
      return Err(signedIn.error);
    }
    var user := signedIn.value;
    if user.email.Some? && user.displayName.Some? {
      var written := store.CreateOrUpdateUserProfile(user.uid, user.email.value, user.displayName.value, now, writeFault);
      if written.Err? {
        return Err(writeFault.value);
      }
    }
    r := Ok(());
  }

  /**
   * A sign-up whose profile write throws leaves an account that the listener
   * reports as not onboarded, since there is no profile to read.
   */
  lemma FailedSignUpWriteNotOnboarded(users: map<string, UserProfileService.Document>, uid: string)
    requires uid !in users
    ensures !OnboardingComplete(UserProfileService.FetchUserProfile(users, uid))
  {
  }

  /**
   * Signing up and then being reported by the listener: authenticated, not
   * onboarded, and the location is saved when authorized; signing out clears onboarding.
   */
  method SignUpThenListenerScenario(uid: string, email: string, displayName: string, now: nat)
    returns (authenticated: bool, onboarded: bool, act: LocationAction, afterSignOut: bool)
    ensures authenticated && !onboarded && act == SaveLocation && !afterSignOut
  {
    var store := new UserProfileService.UserStore();
    var auth := new AuthService();
    var r := SignUp(Ok(uid), Ok(()), email, displayName, now, None, store);
    NewAccountNotOnboarded(map[], uid, email, displayName, now);
    act := auth.AuthStateChanged(Some(User(uid, Some(email), Some(displayName))), store, None, LocationService.AuthorizedWhenInUse);
    authenticated, onboarded := auth.isAuthenticated, auth.hasCompletedOnboarding;
    var s := auth.SignOut(None);
    afterSignOut := auth.hasCompletedOnboarding;
  }
}
