/**
 * The password-reset request form (app/reset-password/page.tsx): one
 * email field, checked against the email pattern before the reset email
 * is requested from the provider, whose answer is an input.
 */
module ResetPasswordPage {
  import opened Wrappers
  import opened Credentials

  const InvalidEmail := "Please enter a valid email address"
  const ResetFailed := "Failed to send password reset email. Please try again."

  class ResetRequestForm {
    var email: string
    var loading: bool
    var error: Option<string>
    var success: bool

    constructor ()
      ensures email == [] && !loading && error == None && !success
    {
      email := [];
      loading := false;
      error := None;
      success := false;
    }

    method SetEmail(value: string)
      modifies this
      ensures email == value && loading == old(loading) && error == old(error) && success == old(success)
    {
      email := value;
    }

    /**
     * `handlePasswordReset`. `requested` says whether the provider was
     * asked; `resetError` is its error message, if it reported one.
     */
    method HandlePasswordReset(resetError: Option<string>) returns (requested: bool)
      modifies this
      ensures requested <==> ValidateEmail(email)
      ensures !requested ==> error == Some(InvalidEmail) && success == old(success)
      ensures requested && resetError.None? ==> success && error == None
      ensures requested && resetError.Some? ==>
        error == Some(if resetError.value != [] then resetError.value else ResetFailed) && success == old(success)
      ensures !loading && email == old(email)
    {
      loading := true;
      error := None;

      if !ValidateEmail(email) {
        error := Some(InvalidEmail);
        loading := false;
        return false;
      }

      requested := true;
      match resetError {
        case Some(message) =>
          error := Some(if message != [] then message else ResetFailed);
        case None =>
          success := true;
      }
      loading := false;
    }

    /** 'Send Again' returns to the form. */
    method SendAgain()
      modifies this
      ensures !success && email == old(email) && loading == old(loading) && error == old(error)
    {
      success := false;
    }
  }
}
