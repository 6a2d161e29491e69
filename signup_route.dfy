/**
 * The server-side registration endpoint (app/auth/signup/route.ts): three
 * field checks on the JSON body, then a profile lookup by email, then the
 * provider's create-user call. The lookup and the create call are inputs;
 * any exception they or body parsing raise ends in the catch-all 500.
 */
module SignupRoute {
  import opened Wrappers
  import opened Credentials
  import opened ApiService

  const FieldsRequired := "Name, email, and password are required"
  const InvalidEmailFormat := "Invalid email format"
  const PasswordTooShort := "Password must be at least 8 characters long"
  const EmailTaken := "Email already registered"
  const UnexpectedError := "An unexpected error occurred"
  const UserCreated := "User created successfully"

  /** `req.json()`: the fields read from the parsed object, or the parse error's message. */
  datatype SignupBody = Parsed(name: JsValue, email: JsValue, password: JsValue) | Malformed(message: string)

  /** `.single()` on the profiles lookup: exactly one row, anything else (no data), or an exception. */
  datatype ProfileLookup = ProfileFound | ProfileAbsent | ProfileThrew(message: string)

  /** `auth.admin.createUser`: a reported error, an exception, or the created user. */
  datatype CreateReply = CreateFailed(message: string) | CreateThrew(message: string)
                       | CreatedUser(id: string, email: string, fullName: string)

  /** The 201 body: `{ message, user: { id, email, name } }`. */
  datatype SignupData = SignupData(message: string, id: string, email: string, name: string)

  /**
   * `emailRegex.test(email)`, which first turns a non-string into text: an
   * array passes when its elements, joined by ',', match.
   */
  predicate EmailAccepted(v: JsValue) {
    ValidateEmail(JsText(v))
  }

  /**
   * `password.length < 8`. A string and an array have a length; for a
   * number or a boolean the comparison is with `undefined` and is false.
   */
  predicate PasswordShort(v: JsValue) {
    match v
    case Str(s) => |s| < 8
    case Arr(elems) => |elems| < 8
    case _ => false
  }

  /** The message of the first field check the body fails, or none. */
  function FieldCheck(name: JsValue, email: JsValue, password: JsValue): (r: Option<string>)
    ensures r.None? <==> Truthy(name) && Truthy(email) && Truthy(password)
                         && EmailAccepted(email) && !PasswordShort(password)
    ensures r == Some(FieldsRequired) <==> !Truthy(name) || !Truthy(email) || !Truthy(password)
    ensures r == Some(InvalidEmailFormat) <==>
      Truthy(name) && Truthy(email) && Truthy(password) && !EmailAccepted(email)
    ensures r == Some(PasswordTooShort) <==>
      Truthy(name) && Truthy(email) && Truthy(password) && EmailAccepted(email) && PasswordShort(password)
  {
    if !Truthy(name) || !Truthy(email) || !Truthy(password) then Some(FieldsRequired)
    else if !EmailAccepted(email) then Some(InvalidEmailFormat)
    else if PasswordShort(password) then Some(PasswordTooShort)
    else None
  }

  /** `error.message || 'An unexpected error occurred'` in the catch block. */
  function Caught(message: string): (r: Response<SignupData>)
    ensures r.status == 500 && r.body.ErrorBody?
    ensures message != [] ==> r.body.error == message
    ensures message == [] ==> r.body.error == UnexpectedError
  {
    Response(500, ErrorBody(if message != [] then message else UnexpectedError))
  }

  /** `POST /api/auth/signup`. */
  function SignupResponse(body: SignupBody, lookup: ProfileLookup, create: CreateReply): (r: Response<SignupData>)
    ensures r.status in {201, 400, 409, 500}
    ensures r.status == 201 <==> r.body.DataBody?
  {
    match body
    case Malformed(message) => Caught(message)
    case Parsed(name, email, password) =>
      match FieldCheck(name, email, password)
      case Some(message) => Response(400, ErrorBody(message))
      case None =>
        match lookup
        case ProfileThrew(message) => Caught(message)
        case ProfileFound => Response(409, ErrorBody(EmailTaken))
        case ProfileAbsent =>
          match create
          case CreateThrew(message) => Caught(message)
          case CreateFailed(message) => Response(500, ErrorBody(message))
          case CreatedUser(id, userEmail, fullName) =>
            Response(201, DataBody(SignupData(UserCreated, id, userEmail, fullName)))
  }

  /**
   * The order of the outcomes: a bad body is refused with 400 and the first
   * failing check's message; then an existing profile gives 409; and 201
   * comes exactly when the checks pass, no profile exists and the user was
   * created, echoing the provider's record.
   */
  lemma SignupOutcomes(body: SignupBody, lookup: ProfileLookup, create: CreateReply)
    ensures SignupResponse(body, lookup, create).status == 400 <==>
      body.Parsed? && FieldCheck(body.name, body.email, body.password).Some?
    ensures body.Parsed? && FieldCheck(body.name, body.email, body.password).Some? ==>
      SignupResponse(body, lookup, create).body == ErrorBody(FieldCheck(body.name, body.email, body.password).value)
    ensures SignupResponse(body, lookup, create).status == 409 <==>
      body.Parsed? && FieldCheck(body.name, body.email, body.password).None? && lookup.ProfileFound?
    ensures SignupResponse(body, lookup, create).status == 201 <==>
      body.Parsed? && FieldCheck(body.name, body.email, body.password).None?
      && lookup.ProfileAbsent? && create.CreatedUser?
    ensures SignupResponse(body, lookup, create).status == 201 ==>
      SignupResponse(body, lookup, create).body.data
      == SignupData(UserCreated, create.id, create.email, create.fullName)
  {
  }

  /** A body that fails a field check gets its answer without the profile lookup or the create call. */
  lemma ProviderNotConsultedOnBadBody(name: JsValue, email: JsValue, password: JsValue,
                                      lookup1: ProfileLookup, create1: CreateReply,
                                      lookup2: ProfileLookup, create2: CreateReply)
    requires FieldCheck(name, email, password).Some?
    ensures SignupResponse(Parsed(name, email, password), lookup1, create1)
         == SignupResponse(Parsed(name, email, password), lookup2, create2)
  {
  }

  /** Likewise an existing profile: the create call's answer plays no part. */
  lemma CreateNotConsultedWhenRegistered(body: SignupBody, create1: CreateReply, create2: CreateReply)
    ensures SignupResponse(body, ProfileFound, create1) == SignupResponse(body, ProfileFound, create2)
  {
  }

  /** No number, boolean, `undefined`, `null` or plain object prints with an '@'. */
  lemma NoAtInText(v: JsValue)
    requires !v.Str? && !v.Arr?
    ensures '@' !in JsText(v)
  {
    if v.Num? && v.n < 0 {
      assert JsText(v) == "-" + DecimalText(-v.n);
    }
  }

  /**
   * The email check is the email pattern on the value's text, so a
   * string is checked as it is, an array through its joined elements,
   * and every other value is refused.
   */
  lemma EmailCheckIsPattern(v: JsValue)
    ensures EmailAccepted(v) <==> MatchesEmailPattern(JsText(v))
    ensures !v.Str? && !v.Arr? ==> !EmailAccepted(v)
  {
    ValidateEmailIff(JsText(v));
    if !v.Str? && !v.Arr? && MatchesEmailPattern(JsText(v)) {
      var i, j :| 0 <= i < j < |JsText(v)| && SplitsAt(JsText(v), i, j);
      NoAtInText(v);
      assert false;
    }
  }

  /** A one-element array of text is checked as that text. */
  lemma EmailInArray(email: string)
    ensures EmailAccepted(Arr([Str(email)])) <==> MatchesEmailPattern(email)
  {
    var a := [Str(email)];
    assert |a| == 1 && a[0] == Str(email);
    assert JoinedText(a) == email;
    ValidateEmailIff(email);
  }

  /**
   * The length check does not limit numbers, booleans or plain objects: a
   * truthy one of these as the password, with a valid name and email,
   * passes all three field checks.
   */
  lemma NonStringPasswordPasses(name: JsValue, email: string, password: JsValue)
    requires Truthy(name) && MatchesEmailPattern(email)
    requires Truthy(password) && !password.Str? && !password.Arr?
    ensures FieldCheck(name, Str(email), password).None?
  {
    ValidateEmailIff(email);
  }

  /** An array password passes the length check exactly when it has at least eight elements. */
  lemma ArrayPasswordLength(name: JsValue, email: string, elems: seq<JsValue>)
    requires Truthy(name) && MatchesEmailPattern(email)
    ensures FieldCheck(name, Str(email), Arr(elems)).None? <==> |elems| >= 8
    ensures |elems| < 8 ==> FieldCheck(name, Str(email), Arr(elems)) == Some(PasswordTooShort)
  {
    ValidateEmailIff(email);
  }

  /** A string password passes the length check exactly when it has at least eight characters. */
  lemma StringPasswordLength(name: JsValue, email: string, password: string)
    requires Truthy(name) && MatchesEmailPattern(email) && password != []
    ensures FieldCheck(name, Str(email), Str(password)).None? <==> |password| >= 8
    ensures |password| < 8 ==> FieldCheck(name, Str(email), Str(password)) == Some(PasswordTooShort)
  {
    ValidateEmailIff(email);
  }
}
