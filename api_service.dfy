/**
 * The request-level rules of lib/api-service.ts: the payload validators,
 * bearer-token extraction in front of the hosted auth provider, the common
 * error handler, and how the record service turns a store reply into a
 * result or a typed error. The store and the auth provider themselves are
 * not modelled: their replies are inputs.
 */
module ApiService {
  import opened Wrappers
  import opened Strings
  import opened Dates

  /**
   * A field of a parsed JSON body; a missing field reads as `Undefined`.
   * Numbers are integers (minor units). An array keeps its elements; any
   * other object is `Obj`, without its properties.
   */
  datatype JsValue = Undefined | Null | Bool(b: bool) | Num(n: int) | NaN | Str(s: string) | Arr(elems: seq<JsValue>) | Obj

  /** JavaScript truthiness. */
  predicate Truthy(v: JsValue) {
    match v
    case Undefined => false
    case Null => false
    case Bool(b) => b
    case Num(n) => n != 0
    case NaN => false
    case Str(s) => s != []
    case Arr(_) => true
    case Obj => true
  }

  /** The decimal digits of `n`, most significant first. */
  function DecimalText(n: nat): (r: string)
    ensures r != [] && forall k :: 0 <= k < |r| ==> '0' <= r[k] <= '9'
  {
    if n < 10 then ['0' + n as char] else DecimalText(n / 10) + ['0' + (n % 10) as char]
  }

  /** `String(n)` for an integer. */
  function NumberText(n: int): string {
    if n < 0 then "-" + DecimalText(-n) else DecimalText(n)
  }

  /**
   * `String(v)`, as a regular expression's `test` converts its argument:
   * an array is its elements joined by ',' with `undefined` and `null`
   * elements empty, and any other object is "[object Object]".
   */
  function JsText(v: JsValue): string
    decreases v
  {
    match v
    case Undefined => "undefined"
    case Null => "null"
    case Bool(b) => if b then "true" else "false"
    case Num(n) => NumberText(n)
    case NaN => "NaN"
    case Str(s) => s
    case Arr(elems) => JoinedText(elems)
    case Obj => "[object Object]"
  }

  /** `Array.prototype.join(',')` over `elems`. */
  function JoinedText(elems: seq<JsValue>): string
    decreases elems
  {
    if elems == [] then []
    else
      var first := if elems[0].Undefined? || elems[0].Null? then [] else JsText(elems[0]);
      if |elems| == 1 then first else first + "," + JoinedText(elems[1..])
  }

  /** The fields of an income or expense body that the validators read. */
  datatype Payload = Payload(amount: JsValue, category: JsValue, description: JsValue, date: JsValue)

  /** `{ valid, error }` as the validators return it. */
  datatype Verdict = Verdict(valid: bool, error: Option<string>)

  const AmountError := "Valid amount is required"
  const CategoryError := "Category is required"
  const DateError := "Valid date is required (YYYY-MM-DD)"
  const DescriptionError := "Description must be a string"

  /** `!data.amount || typeof data.amount !== 'number' || data.amount <= 0` */
  predicate AmountRejected(v: JsValue) {
    !Truthy(v) || !v.Num? || v.n <= 0
  }

  /** `!data.category || typeof data.category !== 'string' || data.category.trim() === ''` */
  predicate CategoryRejected(v: JsValue) {
    !Truthy(v) || !v.Str? || Trim(v.s) == []
  }

  /** `!data.date || typeof data.date !== 'string' || !isValidDate(data.date)` */
  predicate DateRejected(v: JsValue) {
    !Truthy(v) || !v.Str? || !IsValidDate(v.s)
  }

  /** `data.description && typeof data.description !== 'string'` */
  predicate DescriptionRejected(v: JsValue) {
    Truthy(v) && !v.Str?
  }

  /** What each check accepts, in terms of the value rather than of the guard. */
  predicate IsPositiveNumber(v: JsValue) { v.Num? && v.n > 0 }
  predicate IsCategoryText(v: JsValue) { v.Str? && !AllWhitespace(v.s) }
  predicate IsFullDateText(v: JsValue) { v.Str? && IsRfc3339FullDate(v.s) }
  predicate IsOptionalText(v: JsValue) { v.Str? || !Truthy(v) }

  function ValidateIncomeData(p: Payload): (r: Verdict)
    ensures r.valid <==> r.error == None
  {
    if AmountRejected(p.amount) then Verdict(false, Some(AmountError))
    else if DateRejected(p.date) then Verdict(false, Some(DateError))
    else if DescriptionRejected(p.description) then Verdict(false, Some(DescriptionError))
    else Verdict(true, None)
  }

  function ValidateExpenseData(p: Payload): (r: Verdict)
    ensures r.valid <==> r.error == None
  {
    if AmountRejected(p.amount) then Verdict(false, Some(AmountError))
    else if CategoryRejected(p.category) then Verdict(false, Some(CategoryError))
    else if DateRejected(p.date) then Verdict(false, Some(DateError))
    else if DescriptionRejected(p.description) then Verdict(false, Some(DescriptionError))
    else Verdict(true, None)
  }

  lemma AmountCheck(v: JsValue)
    ensures AmountRejected(v) <==> !IsPositiveNumber(v)
  {
  }

  lemma CategoryCheck(v: JsValue)
    ensures CategoryRejected(v) <==> !IsCategoryText(v)
  {
    if v.Str? {
      TrimEmptyIff(v.s);
    }
  }

  lemma DateCheck(v: JsValue)
    ensures DateRejected(v) <==> !IsFullDateText(v)
  {
    if v.Str? {
      IsValidDateIff(v.s);
    }
  }

  /**
   * An income body is judged amount first, then date, then description,
   * and the message names the first check that fails; a body passing all
   * three is `{ valid: true, error: null }`.
   */
  lemma ValidateIncomeDataOrder(p: Payload)
    ensures ValidateIncomeData(p).error == Some(AmountError) <==> !IsPositiveNumber(p.amount)
    ensures ValidateIncomeData(p).error == Some(DateError)
      <==> IsPositiveNumber(p.amount) && !IsFullDateText(p.date)
    ensures ValidateIncomeData(p).error == Some(DescriptionError)
      <==> IsPositiveNumber(p.amount) && IsFullDateText(p.date) && !IsOptionalText(p.description)
    ensures ValidateIncomeData(p) == Verdict(true, None)
      <==> IsPositiveNumber(p.amount) && IsFullDateText(p.date) && IsOptionalText(p.description)
  {
    AmountCheck(p.amount);
    DateCheck(p.date);
    var a, d, e := IsPositiveNumber(p.amount), IsFullDateText(p.date), IsOptionalText(p.description);
    assert ValidateIncomeData(p) ==
      if !a then Verdict(false, Some(AmountError))
      else if !d then Verdict(false, Some(DateError))
      else if !e then Verdict(false, Some(DescriptionError))
      else Verdict(true, None);
  }

  /**
   * An expense body is judged amount, category, date, description, in
   * that order; a category that is empty or only whitespace is rejected.
   */
  lemma ValidateExpenseDataOrder(p: Payload)
    ensures ValidateExpenseData(p).error == Some(AmountError) <==> !IsPositiveNumber(p.amount)
    ensures ValidateExpenseData(p).error == Some(CategoryError)
      <==> IsPositiveNumber(p.amount) && !IsCategoryText(p.category)
    ensures ValidateExpenseData(p).error == Some(DateError)
      <==> IsPositiveNumber(p.amount) && IsCategoryText(p.category) && !IsFullDateText(p.date)
    ensures ValidateExpenseData(p).error == Some(DescriptionError)
      <==> IsPositiveNumber(p.amount) && IsCategoryText(p.category) && IsFullDateText(p.date)
           && !IsOptionalText(p.description)
    ensures ValidateExpenseData(p) == Verdict(true, None)
      <==> IsPositiveNumber(p.amount) && IsCategoryText(p.category) && IsFullDateText(p.date)
           && IsOptionalText(p.description)
  {
    AmountCheck(p.amount);
    CategoryCheck(p.category);
    DateCheck(p.date);
    var a, c, d, e := IsPositiveNumber(p.amount), IsCategoryText(p.category), IsFullDateText(p.date),
                      IsOptionalText(p.description);
    assert ValidateExpenseData(p) ==
      if !a then Verdict(false, Some(AmountError))
      else if !c then Verdict(false, Some(CategoryError))
      else if !d then Verdict(false, Some(DateError))
      else if !e then Verdict(false, Some(DescriptionError))
      else Verdict(true, None);
  }

  // ---------------------------------------------------------------------
  // Authorization

  datatype User = User(id: string, email: string)

  /** What the auth provider answers for a token. */
  datatype AuthLookup = LookupFailed(message: string) | NoUser | Found(user: User) | LookupThrew

  /** `{ user, error }` as `getUserFromToken` returns it. */
  datatype AuthResult = AuthResult(user: Option<User>, error: Option<string>)

  const TokenRequired := "Authorization token required"
  const UnauthorizedAccess := "Unauthorized access"
  const AuthenticationFailed := "Authentication failed"

  /** `req.headers.get('Authorization')?.replace('Bearer ', '')`, with a falsy result read as no token. */
  function BearerToken(authorization: Option<string>): Option<string> {
    match authorization
    case None => None
    case Some(header) =>
      var token := ReplaceFirst(header, "Bearer ", "");
      if token == [] then None else Some(token)
  }

  /** `getUserFromToken`: the provider, `lookup`, is asked only when a token is present. */
  function GetUserFromToken(authorization: Option<string>, lookup: string -> AuthLookup): (r: AuthResult)
    ensures r.user.Some? <==> r.error.None?
    ensures BearerToken(authorization).None? ==> r == AuthResult(None, Some(TokenRequired))
    ensures BearerToken(authorization).Some? ==>
      var answer := lookup(BearerToken(authorization).value);
      && (answer.Found? ==> r == AuthResult(Some(answer.user), None))
      && (answer.NoUser? ==> r == AuthResult(None, Some(UnauthorizedAccess)))
      && (answer.LookupFailed? && answer.message != [] ==> r == AuthResult(None, Some(answer.message)))
      && (answer.LookupFailed? && answer.message == [] ==> r == AuthResult(None, Some(UnauthorizedAccess)))
      && (answer.LookupThrew? ==> r == AuthResult(None, Some(AuthenticationFailed)))
  {
    match BearerToken(authorization)
    case None => AuthResult(None, Some(TokenRequired))
    case Some(token) =>
      match lookup(token)
      case LookupFailed(message) =>
        AuthResult(None, Some(if message != [] then message else UnauthorizedAccess))
      case NoUser => AuthResult(None, Some(UnauthorizedAccess))
      case Found(user) => AuthResult(Some(user), None)
      case LookupThrew => AuthResult(None, Some(AuthenticationFailed))
  }

  /**
   * No header, an empty one, or one that is exactly `Bearer ` yields
   * 'Authorization token required' whatever the provider would have
   * said: the provider is not consulted.
   */
  lemma MissingTokenRejected(authorization: Option<string>, lookup: string -> AuthLookup, other: string -> AuthLookup)
    ensures BearerToken(authorization).None?
      <==> authorization.None? || authorization.value == [] || authorization.value == "Bearer "
    ensures BearerToken(authorization).None? ==>
      GetUserFromToken(authorization, lookup) == AuthResult(None, Some(TokenRequired))
      == GetUserFromToken(authorization, other)
  {
    if authorization.Some? {
      ReplaceFirstEmptyIff(authorization.value, "Bearer ");
    }
  }

  /** `Authorization: Bearer t` hands the provider exactly `t`. */
  lemma BearerTokenOfHeader(token: string)
    requires token != []
    ensures BearerToken(Some("Bearer " + token)) == Some(token)
  {
    var prefix := "Bearer ";
    var h := prefix + token;
    assert h[0..|prefix|] == prefix;
    assert OccursAt(h, prefix, 0);
    assert IndexOfFrom(h, prefix, 0) == 0;
    assert h[|prefix|..] == token;
    assert ReplaceFirst(h, prefix, []) == h[..0] + [] + h[|prefix|..];
    assert h[..0] + [] + h[|prefix|..] == token;
  }

  // ---------------------------------------------------------------------
  // Errors and responses

  /** A thrown value as the handlers inspect it: `statusCode` and `message`, each possibly absent. */
  datatype ThrownError = ThrownError(statusCode: Option<int>, message: Option<string>)

  datatype Body<D> = ErrorBody(error: string) | DataBody(data: D)

  /** `NextResponse.json(body, { status })`. */
  datatype Response<D> = Response(status: int, body: Body<D>)

  const InternalServerError := "Internal Server Error"

  /** `handleApiError`: a missing or zero status becomes 500, a missing or empty message the default. */
  function HandleApiError<D>(error: ThrownError, defaultMessage: string): (r: Response<D>)
    ensures r.body.ErrorBody?
    ensures r.status == 500 <==> error.statusCode.None? || error.statusCode.value in {0, 500}
    ensures r.body.error == defaultMessage <==> error.message.None? || error.message.value in {[], defaultMessage}
    ensures error.statusCode.Some? && error.statusCode.value != 0 ==> r.status == error.statusCode.value
    ensures error.message.Some? && error.message.value != [] ==> r.body.error == error.message.value
  {
    var status := if error.statusCode.Some? && error.statusCode.value != 0 then error.statusCode.value else 500;
    var message := if error.message.Some? && error.message.value != [] then error.message.value else defaultMessage;
    Response(status, ErrorBody(message))
  }

  // ---------------------------------------------------------------------
  // The record service's mapping of store replies

  /** What the store answers: an error with its message, or the rows the query returned. */
  datatype StoreReply<T> = StoreFailed(message: string) | Rows(rows: seq<T>)

  datatype Table = IncomeTable | ExpensesTable

  function NotFoundMessage(t: Table): string {
    match t
    case IncomeTable => "Income record not found"
    case ExpensesTable => "Expense record not found"
  }

  function CreateFailedMessage(t: Table): string {
    match t
    case IncomeTable => "Failed to create income record"
    case ExpensesTable => "Failed to create expense record"
  }

  /** `{ data, error }` as the service methods return it. */
  datatype ServiceResult<T> = ServiceResult(data: Option<T>, error: Option<ThrownError>)

  function StoreError<T>(message: string): ServiceResult<T> {
    ServiceResult(None, Some(ThrownError(Some(500), Some(message))))
  }

  /** `getAll`: the rows, or the store error as a 500. */
  function GetAllRecords<T>(reply: StoreReply<T>): (r: ServiceResult<seq<T>>)
    ensures r.data.Some? <==> reply.Rows?
    ensures r.data.Some? ==> r.data.value == reply.rows && r.error.None?
  {
    match reply
    case StoreFailed(message) => StoreError(message)
    case Rows(rows) => ServiceResult(Some(rows), None)
  }

  /** `create`: the first inserted row; no row back is a 500 'Failed to create … record'. */
  function CreateRecord<T>(t: Table, reply: StoreReply<T>): (r: ServiceResult<T>)
    ensures r.data.Some? <==> reply.Rows? && reply.rows != []
    ensures r.data.Some? ==> r.data.value == reply.rows[0] && r.error.None?
    ensures r.error.Some? ==> r.error.value.statusCode == Some(500)
  {
    match reply
    case StoreFailed(message) => StoreError(message)
    case Rows(rows) =>
      if rows == [] then StoreError(CreateFailedMessage(t)) else ServiceResult(Some(rows[0]), None)
  }

  /** `update`: the first updated row; no row matched is a 404 '… record not found'. */
  function UpdateRecord<T>(t: Table, reply: StoreReply<T>): (r: ServiceResult<T>)
    ensures r.data.Some? <==> reply.Rows? && reply.rows != []
    ensures r.data.Some? ==> r.data.value == reply.rows[0] && r.error.None?
    ensures r.error.Some? ==> r.error.value.statusCode == (if reply.Rows? then Some(404) else Some(500))
  {
    match reply
    case StoreFailed(message) => StoreError(message)
    case Rows(rows) =>
      if rows == [] then ServiceResult(None, Some(ThrownError(Some(404), Some(NotFoundMessage(t)))))
      else ServiceResult(Some(rows[0]), None)
  }

  /** `{ success, error }` as `delete` returns it. */
  datatype DeleteResult = DeleteResult(success: bool, error: Option<ThrownError>)

  /** `delete`: the store's error, if any; how many rows went is never checked. */
  function DeleteRecord(storeError: Option<string>): (r: DeleteResult)
    ensures r.success <==> storeError.None?
    ensures r.success <==> r.error.None?
  {
    match storeError
    case Some(message) => DeleteResult(false, Some(ThrownError(Some(500), Some(message))))
    case None => DeleteResult(true, None)
  }

  /**
   * Through `handleApiError`, an update that matched no row answers 404
   * with the table's not-found message, and a store failure answers 500.
   */
  lemma UpdateStatus<T, D>(t: Table, reply: StoreReply<T>)
    requires UpdateRecord(t, reply).error.Some?
    ensures HandleApiError<D>(UpdateRecord(t, reply).error.value, InternalServerError).status
      == if reply.Rows? then 404 else 500
    ensures reply == Rows([]) ==>
      HandleApiError<D>(UpdateRecord(t, reply).error.value, InternalServerError)
      == Response(404, ErrorBody(NotFoundMessage(t)))
  {
  }

  /** A delete never reports not-found: its only error is a store failure, answered 500. */
  lemma DeleteNeverNotFound<D>(storeError: Option<string>)
    ensures DeleteRecord(storeError).error.Some? ==>
      HandleApiError<D>(DeleteRecord(storeError).error.value, InternalServerError).status == 500
  {
  }
}
