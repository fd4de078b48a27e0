/**
 * The e-mail sign-up screen: the button is enabled by `isFormValid`, and
 * `handleSignup` checks the passwords again, in a fixed order, before it
 * creates the account.
 */
module Signup {
  import opened Wrappers
  import UPS = UserProfileService
  import AuthService

  const PasswordsDoNotMatch := "Passwords do not match"
  const PasswordTooShort := "Password must be at least 6 characters"
  const MinPasswordLength: nat := 6

  /** `isFormValid`: every field filled in, matching passwords of six or more characters. */
  predicate IsFormValid(email: string, password: string, confirmPassword: string, displayName: string) {
    email != "" && password != "" && displayName != "" && password == confirmPassword && |password| >= MinPasswordLength
  }

  /** The message `handleSignup`'s guards give, or none when both pass. */
  function SignupGuard(password: string, confirmPassword: string): (message: Option<string>)
    ensures password != confirmPassword ==> message == Some(PasswordsDoNotMatch)
    ensures password == confirmPassword && |password| < MinPasswordLength ==> message == Some(PasswordTooShort)
    ensures message.None? <==> password == confirmPassword && |password| >= MinPasswordLength
  {
    if password != confirmPassword then Some(PasswordsDoNotMatch)
    else if |password| < MinPasswordLength then Some(PasswordTooShort)
    else None
  }

  /** A form the button accepts always passes the guards. */
  lemma ValidFormPassesGuards(email: string, password: string, confirmPassword: string, displayName: string)
    requires IsFormValid(email, password, confirmPassword, displayName)
    ensures SignupGuard(password, confirmPassword).None?
  {
  }

  /** The guards alone do not look at the e-mail or the display name; only the button does. */
  lemma GuardsIgnoreEmptyFields(password: string)
    requires |password| >= MinPasswordLength
    ensures SignupGuard(password, password).None? && !IsFormValid("", password, password, "")
  {
  }

  class SignupView {
    var email: string
    var password: string
    var confirmPassword: string
    var displayName: string
    var isLoading: bool
    var errorMessage: Option<string>
    var dismissed: bool

    constructor()
      ensures email == "" && password == "" && confirmPassword == "" && displayName == ""
      ensures !isLoading && errorMessage == None && !dismissed
    {
      email, password, confirmPassword, displayName := "", "", "", "";
      isLoading, errorMessage, dismissed := false, None, false;
    }

    predicate ButtonEnabled()
      reads this
    {
      !isLoading && IsFormValid(email, password, confirmPassword, displayName)
    }

    /**
     * `handleSignup`: the mismatch guard, then the length guard; past both,
     * the spinner starts, the old message is cleared, and `signUp` runs with
     * the provider's answers `created` and `committed`; `writeFault` is the
     * error of the profile write, if it throws.
     */
    method HandleSignup(created: Result<string, string>, committed: Result<(), string>, now: nat,
                        writeFault: Option<string>, store: UPS.UserStore)
      modifies this, store
      ensures email == old(email) && password == old(password) && confirmPassword == old(confirmPassword)
      ensures displayName == old(displayName)
      ensures SignupGuard(password, confirmPassword).Some? ==>
                errorMessage == SignupGuard(password, confirmPassword) && isLoading == old(isLoading) &&
                dismissed == old(dismissed) && store.users == old(store.users)
      ensures SignupGuard(password, confirmPassword).None? && created.Ok? && committed.Ok? && writeFault.None? ==>
                errorMessage == None && dismissed && !isLoading &&
                store.users == old(store.users)[created.value := UPS.Encode(UPS.NewProfile(created.value, email, displayName, now))]
      ensures SignupGuard(password, confirmPassword).None? && created.Err? ==>
                errorMessage == Some(created.error) && !isLoading && dismissed == old(dismissed) && store.users == old(store.users)
      ensures SignupGuard(password, confirmPassword).None? && created.Ok? && committed.Err? ==>
                errorMessage == Some(committed.error) && !isLoading && dismissed == old(dismissed) && store.users == old(store.users)
      ensures SignupGuard(password, confirmPassword).None? && created.Ok? && committed.Ok? && writeFault.Some? ==>
                errorMessage == writeFault && !isLoading && dismissed == old(dismissed) && store.users == old(store.users)
    {
      if password != confirmPassword {
        errorMessage := Some(PasswordsDoNotMatch);
        return;
      }
      if |password| < MinPasswordLength {
        errorMessage := Some(PasswordTooShort);
        return;
      }
      isLoading := true;
      errorMessage := None;
      var r := AuthService.SignUp(created, committed, email, displayName, now, writeFault, store);
      if r.Ok? {
        dismissed := true;
      } else {
        errorMessage := Some(r.error);
      }
      isLoading := false;
    }
  }

  /**
   * A short password that also differs from its confirmation is reported as a
   * mismatch, and nothing is written; once the two agree, the length is reported.
   */
  method GuardOrderScenario() returns (first: Option<string>, second: Option<string>, written: bool)
    ensures first == Some(PasswordsDoNotMatch) && second == Some(PasswordTooShort) && !written
  {
    var store := new UPS.UserStore();
    var view := new SignupView();
    view.email, view.displayName := "a@b.c", "Ana";
    view.password, view.confirmPassword := "abc", "abd";
    view.HandleSignup(Ok("u1"), Ok(()), 0, None, store);
    first := view.errorMessage;
    view.confirmPassword := "abc";
    view.HandleSignup(Ok("u1"), Ok(()), 0, None, store);
    second := view.errorMessage;
    written := "u1" in store.users;
  }
}
