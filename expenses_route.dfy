/**
 * The collection endpoint for expenses (app/api/expenses/route.ts): a
 * fixed-window rate limiter keyed by client address, kept in a
 * process-wide map that each request updates in place, and the GET and
 * POST handlers, which apply their checks in the order rate limit (429),
 * authentication (401), body validation (400), store (500 / 201).
 *
 * The clock (`Date.now()`), the auth provider and the store are inputs.
 */
module ExpensesRoute {
  import opened Wrappers
  import opened Records
  import opened ApiService
  import opened Strings
  import opened Dates

  /** Requests allowed per client per window. */
  const RateLimit := 50
  /** Window length in milliseconds. */
  const RateWindow := 60 * 1000

  /** A client's entry in the request map: `{ count, lastReset }`. */
  datatype Window = Window(count: int, lastReset: int)

  /** `req.headers.get('x-forwarded-for') || 'localhost'`. */
  function ClientKey(forwardedFor: Option<string>): (key: string)
    ensures key != []
    ensures forwardedFor.None? || forwardedFor.value == [] ==> key == "localhost"
    ensures forwardedFor.Some? && forwardedFor.value != [] ==> key == forwardedFor.value
  {
    if forwardedFor.Some? && forwardedFor.value != [] then forwardedFor.value else "localhost"
  }

  /**
   * One `checkRateLimit` decision for a client whose entry was `entry`
   * (`None` when unseen): the entry afterwards, and whether the request
   * may proceed.
   */
  function RateStep(entry: Option<Window>, now: int): (r: (Window, bool))
    ensures entry.None? || now - entry.value.lastReset > RateWindow ==> r == (Window(1, now), true)
    ensures entry.Some? && now - entry.value.lastReset <= RateWindow ==>
      r.0 == Window(entry.value.count + 1, entry.value.lastReset)
    ensures r.1 <==> r.0.count <= RateLimit
    ensures r.0.lastReset != now ==> now - r.0.lastReset <= RateWindow
  {
    match entry
    case None => (Window(1, now), true)
    case Some(w) =>
      if now - w.lastReset > RateWindow then (Window(1, now), true)
      else
        var counted := Window(w.count + 1, w.lastReset);
        (counted, counted.count <= RateLimit)
  }

  function Lookup(clients: map<string, Window>, key: string): Option<Window> {
    if key in clients then Some(clients[key]) else None
  }

  /** The module-level request map and `checkRateLimit`. */
  class RateLimiter {
    var clients: map<string, Window>

    constructor ()
      ensures clients == map[]
    {
      clients := map[];
    }

    /** `checkRateLimit`: only the requesting client's entry changes. */
    method CheckRateLimit(forwardedFor: Option<string>, now: int) returns (allowed: bool)
      modifies this
      ensures var key := ClientKey(forwardedFor);
              var step := RateStep(Lookup(old(clients), key), now);
              clients == old(clients)[key := step.0] && allowed == step.1
    {
      var ip := if forwardedFor.Some? && forwardedFor.value != [] then forwardedFor.value else "localhost";
      if ip !in clients {
        clients := clients[ip := Window(1, now)];
        return true;
      }
      var client := clients[ip];
      if now - client.lastReset > RateWindow {
        clients := clients[ip := Window(1, now)];
        return true;
      }
      client := client.(count := client.count + 1);
      clients := clients[ip := client];
      if client.count > RateLimit {
        return false;
      }
      return true;
    }
  }

  /** The decisions for a run of requests from one client, at the given times. */
  function Decisions(entry: Option<Window>, times: seq<int>): (r: seq<bool>)
    ensures |r| == |times|
    decreases |times|
  {
    if times == [] then []
    else
      var step := RateStep(entry, times[0]);
      [step.1] + Decisions(Some(step.0), times[1..])
  }

  /** The client's entry after a run of requests. */
  function After(entry: Option<Window>, times: seq<int>): Option<Window>
    decreases |times|
  {
    if times == [] then entry else After(Some(RateStep(entry, times[0]).0), times[1..])
  }

  /**
   * Inside one window every request, allowed or denied, adds one to the
   * count, and a request is allowed exactly while the count stays within
   * the limit.
   */
  lemma {:induction false} WithinOneWindow(w: Window, times: seq<int>)
    requires forall k :: 0 <= k < |times| ==> times[k] - w.lastReset <= RateWindow
    ensures forall k :: 0 <= k < |times| ==> Decisions(Some(w), times)[k] == (w.count + k + 1 <= RateLimit)
    ensures After(Some(w), times) == Some(Window(w.count + |times|, w.lastReset))
    decreases |times|
  {
    if times != [] {
      var next := Window(w.count + 1, w.lastReset);
      assert RateStep(Some(w), times[0]) == (next, next.count <= RateLimit);
      WithinOneWindow(next, times[1..]);
    }
  }

  /**
   * From a client's first request, the requests made within the next
   * 60000 ms are allowed up to the 50th; the 51st and later are denied.
   */
  lemma FiftyFirstRequestDenied(times: seq<int>)
    requires times != []
    requires forall k :: 0 <= k < |times| ==> times[k] - times[0] <= RateWindow
    ensures forall k :: 0 <= k < |times| ==> Decisions(None, times)[k] == (k < RateLimit)
    ensures After(None, times) == Some(Window(|times|, times[0]))
  {
    var first := Window(1, times[0]);
    WithinOneWindow(first, times[1..]);
    assert Decisions(None, times) == [true] + Decisions(Some(first), times[1..]);
  }

  /**
   * Once more than 60000 ms have passed since the window opened, the next
   * request opens a new window and is allowed, whatever the count was; at
   * exactly 60000 ms the old window still counts, so a client that has
   * used up its 50 requests is still refused.
   */
  lemma WindowExpiry(w: Window, now: int)
    ensures now - w.lastReset > RateWindow ==> RateStep(Some(w), now) == (Window(1, now), true)
    ensures now - w.lastReset == RateWindow ==>
      RateStep(Some(w), now) == (Window(w.count + 1, w.lastReset), w.count < RateLimit)
    ensures now - w.lastReset == RateWindow && w.count >= RateLimit ==> !RateStep(Some(w), now).1
  {
  }

  // ---------------------------------------------------------------------
  // Handlers

  /** The request body: parsed JSON fields, or the message of the exception `req.json()` threw. */
  datatype JsonBody = Parsed(payload: Payload) | Malformed(message: string)

  datatype Request = Request(forwardedFor: Option<string>, authorization: Option<string>, body: JsonBody)

  /** The row POST asks the store to insert. */
  datatype NewExpense = NewExpense(amount: int, category: string, description: Option<string>, date: string)

  datatype ExpensesData = ExpenseList(items: seq<Expense>) | CreatedExpense(item: Expense)

  const TooManyRequests := "Too many requests. Please try again later."

  /** `{ amount: Number(body.amount), category, description: body.description || null, date }`. */
  function ShapeExpense(p: Payload): (e: NewExpense)
    requires ValidateExpenseData(p).valid
    ensures e.amount > 0 && IsPositiveNumber(p.amount) && e.amount == p.amount.n
    ensures e.description.Some? <==> Truthy(p.description)
    ensures e.description.Some? ==> e.description.value != [] && p.description == Str(e.description.value)
    ensures e.category == p.category.s && Trim(e.category) != []
    ensures e.date == p.date.s && IsValidDate(e.date)
  {
    NewExpense(p.amount.n, p.category.s,
               if Truthy(p.description) then Some(p.description.s) else None, p.date.s)
  }

  /** The 401 answer: the auth error, or 'Authentication required' when it is empty. */
  function Unauthorized(auth: AuthResult): Response<ExpensesData> {
    var message := if auth.error.Some? && auth.error.value != [] then auth.error.value else "Authentication required";
    Response(401, ErrorBody(message))
  }

  /** The GET handler after its rate-limit decision. */
  function GetResponse(allowed: bool, auth: AuthResult, getAll: string -> StoreReply<Expense>): Response<ExpensesData> {
    if !allowed then Response(429, ErrorBody(TooManyRequests))
    else if auth.error.Some? || auth.user.None? then Unauthorized(auth)
    else
      var result := GetAllRecords(getAll(auth.user.value.id));
      if result.error.Some? then HandleApiError(result.error.value, InternalServerError)
      else Response(200, DataBody(ExpenseList(result.data.GetOr([]))))
  }

  /** The POST handler after its rate-limit decision. */
  function PostResponse(allowed: bool, auth: AuthResult, body: JsonBody,
                        create: (string, NewExpense) -> StoreReply<Expense>): Response<ExpensesData> {
    if !allowed then Response(429, ErrorBody(TooManyRequests))
    else if auth.error.Some? || auth.user.None? then Unauthorized(auth)
    else match body
      case Malformed(message) => HandleApiError(ThrownError(None, Some(message)), InternalServerError)
      case Parsed(p) =>
        var verdict := ValidateExpenseData(p);
        if !verdict.valid then Response(400, ErrorBody(verdict.error.GetOr([])))
        else
          var result := CreateRecord(ExpensesTable, create(auth.user.value.id, ShapeExpense(p)));
          if result.error.Some? then HandleApiError(result.error.value, InternalServerError)
          else Response(201, DataBody(CreatedExpense(result.data.value)))
  }

  /**
   * POST's checks come in a fixed order: a limited client gets 429 before
   * its token is looked at, an unauthenticated one 401 before its body is
   * read, an invalid body 400 with the validator's message before the
   * store is called, and 201 carries the row the store made from the
   * shaped body for the authenticated user.
   */
  lemma PostCheckOrder(allowed: bool, auth: AuthResult, body: JsonBody,
                       create: (string, NewExpense) -> StoreReply<Expense>)
    ensures !allowed ==> PostResponse(allowed, auth, body, create).status == 429
    ensures allowed && (auth.user.None? || auth.error.Some?) ==> PostResponse(allowed, auth, body, create).status == 401
    ensures allowed && auth.user.Some? && auth.error.None? && body.Parsed? && !ValidateExpenseData(body.payload).valid ==>
      PostResponse(allowed, auth, body, create) == Response(400, ErrorBody(ValidateExpenseData(body.payload).error.value))
    ensures PostResponse(allowed, auth, body, create).status == 201 <==>
      allowed && auth.user.Some? && auth.error.None? && body.Parsed? && ValidateExpenseData(body.payload).valid
      && var reply := create(auth.user.value.id, ShapeExpense(body.payload));
         reply.Rows? && reply.rows != []
    ensures PostResponse(allowed, auth, body, create).status == 201 ==>
      PostResponse(allowed, auth, body, create).body
      == DataBody(CreatedExpense(create(auth.user.value.id, ShapeExpense(body.payload)).rows[0]))
  {
    if allowed && auth.user.Some? && auth.error.None? && body.Parsed? && ValidateExpenseData(body.payload).valid {
      var reply := create(auth.user.value.id, ShapeExpense(body.payload));
      var result := CreateRecord(ExpensesTable, reply);
      if result.error.Some? {
        assert result.error.value.statusCode == Some(500);
      }
    }
  }

  /**
   * GET's checks come in the same order: 429 before the token is looked
   * at, 401 before the store is asked, and then either 200 with the
   * user's rows or the store's error as a 500.
   */
  lemma GetCheckOrder(allowed: bool, auth: AuthResult, getAll: string -> StoreReply<Expense>)
    ensures !allowed ==> GetResponse(allowed, auth, getAll) == Response(429, ErrorBody(TooManyRequests))
    ensures allowed && (auth.user.None? || auth.error.Some?) ==> GetResponse(allowed, auth, getAll).status == 401
    ensures GetResponse(allowed, auth, getAll).status == 200 <==>
      allowed && auth.user.Some? && auth.error.None? && getAll(auth.user.value.id).Rows?
    ensures GetResponse(allowed, auth, getAll).status == 200 ==>
      GetResponse(allowed, auth, getAll).body == DataBody(ExpenseList(getAll(auth.user.value.id).rows))
    ensures allowed && auth.user.Some? && auth.error.None? && getAll(auth.user.value.id).StoreFailed? ==>
      var message := getAll(auth.user.value.id).message;
      GetResponse(allowed, auth, getAll)
      == Response(500, ErrorBody(if message != [] then message else InternalServerError))
  {
  }

  /** `GET /api/expenses`, with the request map as `limiter`. */
  method Get(limiter: RateLimiter, req: Request, now: int, lookup: string -> AuthLookup,
             getAll: string -> StoreReply<Expense>) returns (resp: Response<ExpensesData>)
    modifies limiter
    ensures var step := RateStep(Lookup(old(limiter.clients), ClientKey(req.forwardedFor)), now);
            limiter.clients == old(limiter.clients)[ClientKey(req.forwardedFor) := step.0]
            && resp == GetResponse(step.1, GetUserFromToken(req.authorization, lookup), getAll)
  {
    var allowed := limiter.CheckRateLimit(req.forwardedFor, now);
    if !allowed {
      return Response(429, ErrorBody(TooManyRequests));
    }
    var auth := GetUserFromToken(req.authorization, lookup);
    if auth.error.Some? || auth.user.None? {
      return Unauthorized(auth);
    }
    var result := GetAllRecords(getAll(auth.user.value.id));
    if result.error.Some? {
      return HandleApiError(result.error.value, InternalServerError);
    }
    resp := Response(200, DataBody(ExpenseList(result.data.GetOr([]))));
  }

  /** `POST /api/expenses`, with the request map as `limiter`. */
  method Post(limiter: RateLimiter, req: Request, now: int, lookup: string -> AuthLookup,
              create: (string, NewExpense) -> StoreReply<Expense>) returns (resp: Response<ExpensesData>)
    modifies limiter
    ensures var step := RateStep(Lookup(old(limiter.clients), ClientKey(req.forwardedFor)), now);
            limiter.clients == old(limiter.clients)[ClientKey(req.forwardedFor) := step.0]
            && resp == PostResponse(step.1, GetUserFromToken(req.authorization, lookup), req.body, create)
  {
    var allowed := limiter.CheckRateLimit(req.forwardedFor, now);
    if !allowed {
      return Response(429, ErrorBody(TooManyRequests));
    }
    var auth := GetUserFromToken(req.authorization, lookup);
    if auth.error.Some? || auth.user.None? {
      return Unauthorized(auth);
    }
    if req.body.Malformed? {
      return HandleApiError(ThrownError(None, Some(req.body.message)), InternalServerError);
    }
    var verdict := ValidateExpenseData(req.body.payload);
    if !verdict.valid {
      return Response(400, ErrorBody(verdict.error.GetOr([])));
    }
    var result := CreateRecord(ExpensesTable, create(auth.user.value.id, ShapeExpense(req.body.payload)));
    if result.error.Some? {
      return HandleApiError(result.error.value, InternalServerError);
    }
    resp := Response(201, DataBody(CreatedExpense(result.data.value)));
  }
}
