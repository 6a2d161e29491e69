/**
 * The set-new-password form reached from a reset link
 * (app/reset-password/confirm/page.tsx): the session check made when the
 * page opens, the strength indicator, and the update handler with its
 * two checks before the provider is asked to change the password. The
 * session lookup, the URL hash and the provider's answer are inputs.
 */
module ResetConfirmPage {
  import opened Wrappers
  import opened Strings
  import opened Credentials

  const PasswordTooShort := "Password must be at least 8 characters long"
  const PasswordsDiffer := "Passwords do not match"
  const InvalidLink := "Invalid or expired password reset link. Please request a new one."
  const SessionCheckFailed := "Unable to verify your session. Please request a new password reset link."
  const UpdateFailed := "Failed to update password. Please try again."
  const TokenPrefix := "#access_token="

  /** What `getSession` gave: an exception, no session, or a session whose user has this email (if any). */
  datatype SessionLookup = SessionThrew | NoSession | SessionFound(userEmail: Option<string>)

  /** A session with a user email, or else a hash still non-empty once the first token prefix is removed. */
  predicate SessionValid(lookup: SessionLookup, hash: string) {
    (lookup.SessionFound? && lookup.userEmail.Some? && lookup.userEmail.value != [])
    || (!lookup.SessionThrew? && ReplaceFirst(hash, TokenPrefix, []) != [])
  }

  /**
   * Without a session email, any hash other than the empty one and the bare
   * prefix is accepted; the token itself is not checked.
   */
  lemma HashDecidesWithoutSession(lookup: SessionLookup, hash: string)
    requires !lookup.SessionThrew?
    requires lookup.NoSession? || lookup.userEmail.None? || lookup.userEmail.value == []
    ensures SessionValid(lookup, hash) <==> hash != [] && hash != TokenPrefix
  {
    ReplaceFirstEmptyIff(hash, TokenPrefix);
  }

  /** The message of the first check the new password fails, or none. */
  function UpdateGuard(newPassword: string, confirm: string): (r: Option<string>)
    ensures r.None? <==> |newPassword| >= 8 && newPassword == confirm
    ensures r == Some(PasswordTooShort) <==> |newPassword| < 8
    ensures r == Some(PasswordsDiffer) <==> |newPassword| >= 8 && newPassword != confirm
  {
    if |newPassword| < 8 then Some(PasswordTooShort)
    else if newPassword != confirm then Some(PasswordsDiffer)
    else None
  }

  class ResetConfirmForm {
    var newPassword: string
    var confirmPassword: string
    var loading: bool
    var error: Option<string>
    var success: bool
    var passwordStrength: Option<Strength>
    var validSession: Option<bool>

    ghost predicate Valid()
      reads this
    {
      passwordStrength == PasswordStrength(newPassword)
    }

    /** The session is undecided (`null`) until the check has run. */
    constructor ()
      ensures Valid()
      ensures newPassword == [] && confirmPassword == [] && !loading && error == None && !success
      ensures validSession == None
    {
      newPassword, confirmPassword := [], [];
      loading := false;
      error := None;
      success := false;
      passwordStrength := None;
      validSession := None;
    }

    /** `checkSession`: decides the session, and explains a rejection. */
    method CheckSession(lookup: SessionLookup, hash: string)
      requires Valid()
      modifies this
      ensures Valid()
      ensures validSession == Some(SessionValid(lookup, hash))
      ensures lookup.SessionThrew? ==> error == Some(SessionCheckFailed)
      ensures !lookup.SessionThrew? && !SessionValid(lookup, hash) ==> error == Some(InvalidLink)
      ensures SessionValid(lookup, hash) ==> error == old(error)
      ensures newPassword == old(newPassword) && confirmPassword == old(confirmPassword)
      ensures loading == old(loading) && success == old(success)
    {
      if lookup.SessionThrew? {
        validSession := Some(false);
        error := Some(SessionCheckFailed);
      } else if lookup.SessionFound? && lookup.userEmail.Some? && lookup.userEmail.value != [] {
        validSession := Some(true);
      } else {
        var accessToken := ReplaceFirst(hash, TokenPrefix, []);
        if accessToken != [] {
          validSession := Some(true);
        } else {
          validSession := Some(false);
          error := Some(InvalidLink);
        }
      }
    }

    /** Typing a new password; the strength effect follows it. */
    method SetNewPassword(value: string)
      requires Valid()
      modifies this
      ensures Valid()
      ensures newPassword == value && passwordStrength == PasswordStrength(value)
      ensures confirmPassword == old(confirmPassword) && loading == old(loading) && error == old(error)
      ensures success == old(success) && validSession == old(validSession)
    {
      newPassword := value;
      passwordStrength := PasswordStrength(value);
    }

    method SetConfirmPassword(value: string)
      requires Valid()
      modifies this
      ensures Valid()
      ensures confirmPassword == value && newPassword == old(newPassword) && loading == old(loading)
      ensures error == old(error) && success == old(success) && validSession == old(validSession)
    {
      confirmPassword := value;
    }

    /**
     * `handlePasswordUpdate`. `called` says whether the provider was asked
     * to change the password; `updateError` is its error message, if any.
     */
    method HandlePasswordUpdate(updateError: Option<string>) returns (called: bool)
      requires Valid()
      modifies this
      ensures Valid()
      ensures called <==> UpdateGuard(old(newPassword), old(confirmPassword)).None?
      ensures !called ==> error == UpdateGuard(old(newPassword), old(confirmPassword)) && success == old(success)
      ensures called && updateError.None? ==> success && error == None
      ensures called && updateError.Some? ==>
        error == Some(if updateError.value != [] then updateError.value else UpdateFailed) && success == old(success)
      ensures !loading
      ensures newPassword == old(newPassword) && confirmPassword == old(confirmPassword)
      ensures validSession == old(validSession)
    {
      loading := true;
      error := None;

      if |newPassword| < 8 {
        error := Some(PasswordTooShort);
        loading := false;
        return false;
      }
      if newPassword != confirmPassword {
        error := Some(PasswordsDiffer);
        loading := false;
        return false;
      }

      called := true;
      match updateError {
        case Some(message) =>
          error := Some(if message != [] then message else UpdateFailed);
        case None =>
          success := true;
      }
      loading := false;
    }
  }
}
