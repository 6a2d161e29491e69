/**
 * The sign-up form (app/signup/page.tsx): its fields, the strength
 * indicator kept in step with the password, and the submit handler,
 * which checks the fields in a fixed order before calling the sign-up
 * provider. The provider's reply is an input.
 */
module SignupPage {
  import opened Wrappers
  import opened Strings
  import opened Credentials

  const NameRequired := "Please enter your name"
  const InvalidEmail := "Please enter a valid email address"
  const PasswordTooShort := "Password must be at least 8 characters long"
  const PasswordsDiffer := "Passwords do not match"
  const SignupSucceeded := "Registration successful! Please check your email to verify your account."
  const SignupFailed := "Failed to create account. Please try again."

  datatype Step = SignupStep | VerifyStep

  datatype Field = NameField | EmailField | PasswordField | ConfirmPasswordField

  /** The provider's answer: an error (with its message), no user, or a created user. */
  datatype SignUpReply = SignUpError(message: string) | NoUserCreated | UserCreated

  /** The message of the first check the form fails, or none when it passes all four. */
  function SignupGuard(name: string, email: string, password: string, confirm: string): (r: Option<string>)
    ensures r.None? <==> !AllWhitespace(name) && ValidateEmail(email) && |password| >= 8 && password == confirm
  {
    TrimEmptyIff(name);
    if Trim(name) == [] then Some(NameRequired)
    else if !ValidateEmail(email) then Some(InvalidEmail)
    else if |password| < 8 then Some(PasswordTooShort)
    else if password != confirm then Some(PasswordsDiffer)
    else None
  }

  /** Each message is given exactly when its check is the first to fail. */
  lemma SignupGuardOrder(name: string, email: string, password: string, confirm: string)
    ensures SignupGuard(name, email, password, confirm) == Some(NameRequired) <==> AllWhitespace(name)
    ensures SignupGuard(name, email, password, confirm) == Some(InvalidEmail) <==>
      !AllWhitespace(name) && !MatchesEmailPattern(email)
    ensures SignupGuard(name, email, password, confirm) == Some(PasswordTooShort) <==>
      !AllWhitespace(name) && MatchesEmailPattern(email) && |password| < 8
    ensures SignupGuard(name, email, password, confirm) == Some(PasswordsDiffer) <==>
      !AllWhitespace(name) && MatchesEmailPattern(email) && |password| >= 8 && password != confirm
  {
    TrimEmptyIff(name);
    ValidateEmailIff(email);
  }

  class SignupForm {
    var name: string
    var email: string
    var password: string
    var confirmPassword: string
    var loading: bool
    var error: Option<string>
    var success: Option<string>
    var step: Step
    var passwordStrength: Option<Strength>

    /** The strength indicator always shows the strength of the current password. */
    ghost predicate Valid()
      reads this
    {
      passwordStrength == PasswordStrength(password)
    }

    constructor ()
      ensures Valid()
      ensures name == [] && email == [] && password == [] && confirmPassword == []
      ensures !loading && error == None && success == None && step == SignupStep && passwordStrength == None
    {
      name, email, password, confirmPassword := [], [], [], [];
      loading := false;
      error := None;
      success := None;
      step := SignupStep;
      passwordStrength := None;
    }

    /** `handleChange`, followed by the strength effect when the password changed. */
    method ChangeField(field: Field, value: string)
      requires Valid()
      modifies this
      ensures Valid()
      ensures name == (if field == NameField then value else old(name))
      ensures email == (if field == EmailField then value else old(email))
      ensures password == (if field == PasswordField then value else old(password))
      ensures confirmPassword == (if field == ConfirmPasswordField then value else old(confirmPassword))
      ensures loading == old(loading) && error == old(error) && success == old(success) && step == old(step)
    {
      match field {
        case NameField => name := value;
        case EmailField => email := value;
        case PasswordField =>
          password := value;
          passwordStrength := PasswordStrength(value);
        case ConfirmPasswordField => confirmPassword := value;
      }
    }

    /** `resetForm`: every field empty, no messages, back at the first step. */
    method ResetForm()
      requires Valid()
      modifies this
      ensures Valid()
      ensures name == [] && email == [] && password == [] && confirmPassword == []
      ensures error == None && success == None && step == SignupStep && passwordStrength == None
      ensures loading == old(loading)
    {
      name, email, password, confirmPassword := [], [], [], [];
      error := None;
      success := None;
      step := SignupStep;
      passwordStrength := PasswordStrength(password);
    }

    /**
     * `handleEmailSignup`. `called` says whether the provider was asked;
     * its reply is read only then.
     */
    method HandleEmailSignup(reply: SignUpReply) returns (called: bool)
      requires Valid()
      modifies this
      ensures Valid()
      ensures called <==> SignupGuard(old(name), old(email), old(password), old(confirmPassword)).None?
      ensures !called ==> error == SignupGuard(old(name), old(email), old(password), old(confirmPassword))
                          && success == None && step == old(step)
      ensures called && reply.UserCreated? ==> success == Some(SignupSucceeded) && error == None && step == VerifyStep
      ensures called && reply.SignUpError? ==>
        error == Some(if reply.message != [] then reply.message else SignupFailed) && success == None && step == old(step)
      ensures called && reply.NoUserCreated? ==> error == Some(SignupFailed) && success == None && step == old(step)
      ensures !loading
      ensures name == old(name) && email == old(email) && password == old(password)
      ensures confirmPassword == old(confirmPassword)
    {
      // The four checks read only the fields, so they are evaluated before
      // the flags are reset; the first failure ends the handler.
      var failure := SignupGuard(name, email, password, confirmPassword);
      loading := true;
      error := None;
      success := None;

      if failure.Some? {
        error := failure;
        loading := false;
        return false;
      }

      called := true;
      match reply {
        case UserCreated =>
          success := Some(SignupSucceeded);
          step := VerifyStep;
        case NoUserCreated =>
          error := Some(SignupFailed);
        case SignUpError(message) =>
          error := Some(if message != [] then message else SignupFailed);
      }
      loading := false;
    }
  }
}
