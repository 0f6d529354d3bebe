/**
 * The e-mail sign-up form (`src/app/signup/page.tsx`): the password checks made before the
 * account is requested and the `loading`, `error` and `success` state they drive.
 */
module SignupPage {
  import opened Common

  const MismatchError := "Passwords do not match"
  const TooShortError := "Password must be at least 6 characters"
  const MinPasswordLength := 6

  /** The checks before `signUp`: the passwords must match, and only then is the length checked. */
  function PasswordError(password: string, confirmPassword: string): (err: Option<string>)
    ensures password != confirmPassword ==> err == Some(MismatchError)
    ensures password == confirmPassword && |password| < MinPasswordLength ==> err == Some(TooShortError)
    ensures err.None? <==> password == confirmPassword && |password| >= MinPasswordLength
  {
    if password != confirmPassword then Some(MismatchError)
    else if |password| < MinPasswordLength then Some(TooShortError)
    else None
  }

  class Form {
    var email: string
    var password: string
    var confirmPassword: string
    var loading: bool
    var error: Option<string>
    var success: bool

    constructor ()
      ensures email == "" && password == "" && confirmPassword == ""
      ensures !loading && error.None? && !success
    {
      email := "";
      password := "";
      confirmPassword := "";
      loading := false;
      error := None;
      success := false;
    }

    /** `handleEmailSignup` up to the call. A failed check sets its message and ends the handler
        with `loading` false; otherwise `signUp` is called with `loading` still true. */
    method BeginSignup() returns (signUp: bool)
      modifies this`loading, this`error
      ensures error == PasswordError(password, confirmPassword)
      ensures signUp <==> error.None?
      ensures loading <==> signUp
    {
      loading := true;
      error := None;
      if password != confirmPassword {
        error := Some(MismatchError);
        loading := false;
        return false;
      }
      if |password| < MinPasswordLength {
        error := Some(TooShortError);
        loading := false;
        return false;
      }
      return true;
    }

    /** The rest of `handleEmailSignup`: `replyError` is the message of the error `signUp`
        answered with, if any. Either way `loading` ends false. */
    method FinishSignup(replyError: Option<string>)
      modifies this`loading, this`error, this`success
      ensures !loading
      ensures replyError.Some? ==> error == replyError && success == old(success)
      ensures replyError.None? ==> success && error == old(error)
    {
      if replyError.Some? {
        error := replyError;
      } else {
        success := true;
      }
      loading := false;
    }
  }
}
